# Session server and move-key protocol, verified in Dafny

This project models the multiplayer session server of a small browser game, together
with the client half of its move-key protocol. The server is `server.js`. The client
half is the local player and its table of remote entities in `public/src/script.js`.

The server keeps four pieces of shared state:
- the `clients` registry, a Map from uuid to socket, kept in insertion order;
- the append-only `chat` log;
- the uuid counter `_client_id`;
- one `Client` record per connection.

Each connection is a small state machine:
- `ready` registers the session and answers with `open`.
- `ready2` makes the session prepared and broadcasts the roster.
- After that, `disconnect`, `chat` and `move` are handled.
- A keepalive timer kicks a session that is slow to log in or to answer a ping.

Every accepted `move` replaces the session's move key with a fresh one. The new key
goes back to the mover alone, as `nextKey`. The next move must carry it, or the
session is kicked.

The client sends a move only when it holds a key, or before its first move. It forgets
the key once it has sent it.

The model proves the property that ties both halves together: with in-order delivery,
the server never kicks the client for an "Unauthorized move packet."

Files and modules:

- `wire.dfy`, module `Wire`:
  - the values on the wire: events, client messages, positions;
  - JavaScript truthiness of a key (`null` and `0` are falsy);
  - the squared distance, and the lemma that compares a square root without computing it;
  - the decimal text of a uuid.
- `sessions.dfy`, module `Sessions`:
  - the `Client` record;
  - `parseEntity`;
  - the two checks of the move handler, and what an accepted move commits.
- `broadcast.dfy`, module `Broadcast`:
  - the fan-out of `broadcastEmit` and `broadcastMessage`.
  - The per-recipient payload is a datatype. There is one constructor per function the server passes as `b`, one (`ChatLineFor`) for the line `sendMessage` stamps with the recipient's uuid, and `Fixed` for a payload that is not a function.
- `server.dfy`, module `GameServer`: class `Server`.
  - It holds the registry, the sessions, the chat log and the counter.
  - It has one method per listener and one for a timer tick.
  - Every emitted event is appended to an outbox of deliveries.
- `client.dfy`, module `GameClient`: class `Player`.
  - `broadcastMovement` and `hasMoved`.
  - The `open`, `addEntities`, `removeEntity`, `updateEntity`, `ping` and `kicked` listeners.
  - `Entity.init` and `Entity.close` over `serverData.entities`.
- `lockstep.dfy`, module `LockStep`: class `Link`.
  - One `Server`, one `Player`, and the two directions of the player's socket.
  - Any number of other sessions act through arbitrary messages and timer ticks.
  - Its invariant `KeyDiscipline` holds across every step the model has: the server's messages, the player's `ready`, `ready2`, `pong`, `chat` and `move` emits, input, and the other sessions. Every move the player sends carries exactly the key the server holds for it, so the server never rejects the player's move as unauthorized.

The code behaves as follows, where a stricter protocol might not; the model keeps each behaviour:
- The move handler checks the distance before the key.
- `broadcastMessage` sends to every registered session, prepared or not, not only to prepared ones.
- The `addEntities` roster lists every registered session, prepared or not.
- The keepalive timer is never cancelled.
- A kicked session itself receives its "disconnected" chat line and, when prepared, its own `removeEntity`.
- A held key of `null` or `0` lets any key through.

## Model

| member | source | states |
|---|---|---|
| Wire.DecimalText | server.js:76 | the text a uuid contributes to a chat line is non-empty, all digits, starts with '0' only for 0, and its digits read back as the uuid (`DigitsValue`) |
| Wire.DecimalTextInjective | server.js:76 | two uuids with the same text are the same uuid, so the chat lines of different sessions name different sessions |
| Wire.Truthy | server.js:97 | `null` and `0` are falsy keys, and a truthy key is a number (also `if (ev.nextKey)` and `!this.moveKey` on the client) |
| Wire.SqDist | server.js:153 | the square of the distance between two points, zero from a point to itself (also `V3.distance`, public/src/script.js:159-164) |
| Sessions.TooFarIsDistanceAboveTen | server.js:152-154 | for the non-negative square root `d` of the squared distance, `d > 10` exactly when the squared distance exceeds 100, so the model needs no square root |
| Sessions.NewSession | server.js:36-45 | a new session carries its own uuid, is neither prepared nor waiting for `ready2` nor waiting for a pong, and its first move passes the key test whatever key it carries |
| Sessions.TooFar | server.js:96 | a move to the session's own position is never too far |
| Sessions.Unauthorized | server.js:97 | the key test fails exactly when the held key is truthy and the packet's key differs; a falsy held key or an equal key passes |
| Sessions.ParseEntity | server.js:117-126 | the public view of a session carries that session's uuid, position and three angles, and its action under `action`; it has no key field |
| Sessions.Commit | server.js:97-103 | an accepted move keeps the session's uuid and flags, publishes exactly the packet's pose and action under the mover's uuid, and replaces the held key by the nonce: a next in-range move carrying the nonce is accepted, and (for a truthy nonce) one carrying any other key, the stale key included, is rejected as unauthorized |
| Sessions.Judge | server.js:96-97 | a move is illegal exactly when it is more than 10 away, whatever its key; it is unauthorized only when the held key is truthy and differs from the packet's; it is accepted exactly when it is within 10 and the key matches or the held key is falsy |
| Broadcast.Instantiate | server.js:13 | a fixed payload goes out unchanged; every per-recipient payload yields an event addressed to that recipient's uuid; an `updateEntity` copy for anyone but the mover carries no `nextKey` |
| Broadcast.Eligible | server.js:12 | with an empty exclusion list and no preparedness filter every session is eligible; a listed session is never eligible |
| Broadcast.Fanout | server.js:10-16 | one pass over the registry in registry order, never more deliveries than registry entries (that each recipient gets at most one copy is `FanoutOncePerRecipient`) |
| Broadcast.FanoutReachesExactlyEligible | server.js:10-17 | a delivery is in a broadcast exactly when its recipient is registered, not excluded (or the exclusion list is empty), prepared if the broadcast requires it, and the event is the payload built for that recipient |
| Broadcast.FanoutOncePerRecipient | server.js:11-16 | over a registry without duplicates, no session receives two copies of one broadcast |
| GameServer.Without | server.js:141 | deleting an uuid leaves exactly the other registered uuids, never lengthens the registry, and leaves it unchanged when the uuid is not registered |
| GameServer.WithoutAppend | server.js:141 | deleting distributes over concatenation, so the remaining entries keep their relative order |
| GameServer.WithoutDistinct | server.js:141 | deleting an uuid keeps the registry free of duplicates |
| GameServer.ConnectedLine | server.js:76 | the "connected" line is `#`, the uuid's decimal text and ` has connected` |
| GameServer.DisconnectedLine | server.js:131 | the "disconnected" line is `#`, the uuid's decimal text, ` has disconnected: ` and the public reason |
| GameServer.GuestLine | server.js:91 | a chat line is `Guest `, the sender's uuid, `: ` and the message |
| GameServer.ConnectedLineNamesOne | server.js:76 | two "connected" lines are equal only for the same uuid |
| GameServer.DisconnectedLineNamesOne | server.js:131 | two "disconnected" lines are equal only for the same uuid, whatever the reasons |
| GameServer.GuestLineNamesOne | server.js:91 | two chat lines are equal only for the same sender, whatever the messages |
| GameServer.KickNotices | server.js:131-140 | the notices of a kick include the `kicked` event to the kicked session, and there are at most two per registered session plus that one |
| GameServer.Roster | server.js:80-83 | the roster has one entry per registered session, in registry order, each under that session's uuid and carrying that session's entity |
| GameServer.KickNoticesReachTheKicked | server.js:128-142 | a registered kicked session receives its own "disconnected" line and, when prepared, its own `removeEntity`; every notice goes to a registered session; the only `kicked` event is the one sent to the kicked session |
| GameServer.ChatReachesEveryRegistered | server.js:26-27 | a chat line reaches every registered session, prepared or not, stamped with the recipient's own uuid, and reaches no one else |
| GameServer.OnlyMoverGetsNextKey | server.js:104-111 | the `updateEntity` of an accepted move reaches exactly the prepared registered sessions; only the mover's own copy carries the new key |
| GameServer.RosterReachesEveryPrepared | server.js:77-84 | the `addEntities` of `ready2` reaches exactly the prepared registered sessions; its roster lists every registered session, prepared or not, in registry order |
| GameServer.Server.constructor | server.js:7-8 | the server starts with an empty registry, no sessions, an empty chat log, an empty outbox and the counter at 0 |
| GameServer.Server.Connect | server.js:158-162 | a new connection takes the incremented counter as its uuid; it is greater than every uuid handed out before and starts with the field initialisers of `Client` |
| GameServer.Server.Emit | server.js:11-16 | one pass over the registry appends exactly the broadcast's deliveries, in registry order |
| GameServer.Server.EmitTo | server.js:12-14 | one step of the `forEach`: the recipient gets its own copy of the payload exactly when it is eligible, and nothing else is emitted |
| GameServer.Server.BroadcastEmit | server.js:10-17 | `broadcastEmit` appends the broadcast to prepared sessions and changes nothing else |
| GameServer.Server.BroadcastMessage | server.js:21-29 | `broadcastMessage` appends one entry to the chat log, keeping the earlier entries, then sends the line to every registered session |
| GameServer.Server.Kick | server.js:128-142 | `kick` does nothing for an unregistered session; otherwise it logs and sends the "disconnected" line, sends `kicked`, broadcasts `removeEntity`, and only then deletes the registry entry |
| GameServer.Server.KickEffects | server.js:129-141 | the effect `kick` promises: for a registered session, one "disconnected" log entry, the kick notices over the old registry and the entry deleted; for an unregistered one, no change to the log, the outbox or the registry |
| GameServer.Server.Notify | server.js:130-140 | while the session is still registered, one "disconnected" entry is logged and the outbox grows by exactly the kick notices over the current registry |
| GameServer.Server.Unregister | server.js:141 | the registry loses exactly the given uuid and keeps its order |
| GameServer.Server.OnReady | server.js:64-71 | `ready` registers the session (keeping its place if it is still registered), leaves `hasPrepared` as it was, sends it `open` with its uuid and the chat log as it stood, and installs the `ready2` listener |
| GameServer.Server.ReadyAfterKick | server.js:64-65 | a session that is kicked and then sends `ready` again is registered again with `hasPrepared` as it was before the kick, and is sent a new `open` |
| GameServer.Server.OnReady2 | server.js:72-84 | `ready2` is ignored before `ready` or for an unregistered session; otherwise it makes the session prepared, logs and broadcasts the "connected" line, and sends every prepared session the roster of all registered sessions |
| GameServer.Server.OnDisconnect | server.js:85-88 | a transport disconnect of a prepared session is `kick("", "client disconnect")`; before `ready2` nothing happens |
| GameServer.Server.OnChat | server.js:89-93 | a chat message of a prepared, registered session logs and broadcasts `Guest <uuid>: <message>`; otherwise nothing happens |
| GameServer.Server.OnMove | server.js:94-111 | a move is ignored before `ready2` or after the session is unregistered; the verdict is `Judge` of the committed state; an illegal or unauthorized move kicks with its reason; an accepted move commits exactly the proposed pose and action with a new key and sends `updateEntity` to every prepared session |
| GameServer.Server.OnPong | server.js:62 | `pong` clears the outstanding-ping flag and changes nothing else |
| GameServer.Server.Tick | server.js:56-61 | a tick kicks an unprepared session with "login timeout" and a session with an outstanding ping with "timeout"; otherwise it marks a ping outstanding and sends `ping` |
| GameClient.HasMoved | public/src/script.js:471-473 | `hasMoved` holds while the last-sent angle array has fewer than three entries (so before the first move), holds when the squared distance from the last sent position is positive, holds when yaw, head yaw or pitch changed, and fails right after a send |
| GameClient.MovedIsDistanceAboveZero | public/src/script.js:159-164 | for the non-negative root `d` of the squared distance, `d > 0` exactly when the squared distance is positive |
| GameClient.Spawn | public/src/script.js:385-388 | an entity spawned from a roster entry has that entry's uuid, position, yaw, pitch and head yaw, and the default action 0 |
| GameClient.Overwrite | public/src/script.js:407-413 | an overwritten entry keeps its uuid, takes the update's position and angles, and its action becomes undefined |
| GameClient.AddRoster | public/src/script.js:381-390 | handling a roster never removes an entry and never adds the player's own uuid |
| GameClient.Skipped | public/src/script.js:383 | a roster entry is skipped exactly when it is the player itself or its uuid is already in the table |
| GameClient.AddRosterSpec | public/src/script.js:379-391 | `addEntities` never changes an existing entry and never adds the player itself; it adds exactly the other uuids of the roster, each spawned from a roster entry with that uuid |
| GameClient.Player.constructor | public/src/script.js:331-336 | the player starts with uuid -1, no key, `isFirstMove` set, the two-entry angle array, an empty entity table, and is ready to send its first move |
| GameClient.Player.Start | public/src/script.js:415 | `player.init()` emits `ready` |
| GameClient.Player.Steer | public/src/script.js:686-706 | input and physics set the pose and the action id that the next move reports |
| GameClient.Player.BroadcastMovement | public/src/script.js:475-490 | a move is sent exactly when the player has moved and holds a truthy key or has never sent; otherwise nothing changes; a sent move carries the pose, the action and the held key, after which the key is gone, `isFirstMove` is cleared, and the last-sent pose equals the current pose, so no further move is sent until a key arrives |
| GameClient.Player.MaySend | public/src/script.js:476 | a move may go out only when the player has moved; on the first move it may always go out once moved; without a truthy key after the first move it never does |
| GameClient.Player.EntityInit | public/src/script.js:229-233 | `Entity.init` files the entity under its uuid |
| GameClient.Player.EntityClose | public/src/script.js:276-281 | `Entity.close` deletes the entry filed under the entity's uuid |
| GameClient.Player.OnOpen | public/src/script.js:363-368 | `open` counts itself, requests a reload from the second one on, emits `ready2` and adopts the uuid it carries |
| GameClient.Player.OnAddEntities | public/src/script.js:379-391 | the loop over the roster leaves the table `AddRoster` describes |
| GameClient.Player.OnRemoveEntity | public/src/script.js:392-397 | `removeEntity` deletes a present entry and is a no-op for an absent one |
| GameClient.Player.OnUpdateEntity | public/src/script.js:398-414 | the copy addressed to the entity itself only stores a truthy `nextKey` and leaves the table alone; any other copy is ignored for an absent uuid and otherwise overwrites exactly the position, the three angles and `actionId` |
| GameClient.Player.OnPing | public/src/script.js:355-358 | `ping` is answered with `pong` |
| GameClient.Player.SendChat | public/src/script.js:624-627 | Enter in the chat input emits `chat` with the typed line and nothing else |
| GameClient.Player.OnKicked | public/src/script.js:359-362 | `kicked` requests a reload |
| LockStep.GrantsOfFanout | server.js:108-111 | a broadcast hands the client a key only when it is the `updateEntity` of the client's own accepted move and the client is among its prepared recipients; the key is the new one |
| LockStep.KickGrantsNothing | server.js:128-142 | the notices of a kick hand no one a key |
| LockStep.Ready2GrantsNothing | server.js:76-84 | the "connected" line and the roster that `ready2` broadcasts grant no key to anyone |
| LockStep.SendKeepsDiscipline | public/src/script.js:476-488 | sending a move keeps the lock-step invariant: the move carries the only live key (or none, before the first move) and the client keeps none |
| LockStep.AcceptKeepsDiscipline | server.js:97-98 | under the lock-step invariant, the move at the head of the channel carries exactly the held key, so it passes the key check; accepting it and handing out the new key keeps the invariant |
| LockStep.DropKeepsDiscipline | server.js:95-96 | a move that is ignored or kicked for distance leaves the invariant intact |
| LockStep.GrantKeepsDiscipline | public/src/script.js:401-404 | reading a handed-out key keeps the invariant: a truthy key becomes the client's own key, which equals the server's |
| LockStep.Link.constructor | server.js:158-162 | a client that connects to a running server and calls `player.init()` starts in the lock-step invariant |
| LockStep.Link.Serve | server.js:62-112 | dispatching any message to its listener only grows the outbox; only the client's own accepted move hands it a key and changes the key the server holds for it |
| LockStep.Link.ServerReceive | server.js:97 | the next message from the client keeps the invariant; a move carries exactly the key the server holds for the client, so the server never judges it an unauthorized move |
| LockStep.Link.PeerSend | server.js:64-112 | any message from another session keeps the invariant |
| LockStep.Link.ClientVanishes | server.js:85-88 | the transport disconnect of the client keeps the invariant |
| LockStep.Link.PeerConnect | server.js:158-162 | a new connection keeps the invariant and never takes the client's uuid |
| LockStep.Link.ServerTick | server.js:56-61 | a timer tick of any session keeps the invariant |
| LockStep.Link.ClientSteer | public/src/script.js:686-706 | input and physics keep the invariant |
| LockStep.Link.ClientMove | public/src/script.js:475-490 | `broadcastMovement` keeps the invariant |
| LockStep.Link.ClientChat | public/src/script.js:624-627 | the client's own chat send keeps the invariant |
| LockStep.Link.ClientReceive | public/src/script.js:355-414 | the client's handling of the next delivery on its socket keeps the invariant |

## Left out

- Express, http and socket.io plumbing (server.js:3-5, 157-165). Client messages are method calls, emits are appends to an outbox, and the socket dispatch is `LockStep.Link.Serve` and `LockStep.Link.ClientReceive`. Delivery is in order per socket; loss is not modelled.
- `setInterval` itself. One run of the timer body is `Tick`. Because the timer is never cleared, a kicked but prepared session can still be sent a `ping`; the model allows that.
- `console.log` and `getFormattedTime` (server.js:51-53, 31-34).
- The wall clock `time()`. Each handler takes one `now`, but the source reads the clock separately for the log entry and for each emitted event, so those times can differ.
- `Math.random()`. The new key is the parameter `nonce`. A nonce of 0 is falsy: the server then accepts any key, and the client does not store it.
- Duplicated listeners. A repeated `ready` installs another `ready2` listener, and each `ready2` run installs another set of `disconnect`, `chat` and `move` listeners. The model dispatches each message once, by the state flags `awaitsReady2` and `hasPrepared`.
- Packets with missing or non-numeric fields. Positions are exact reals, so the `NaN` comparisons of JavaScript (a `NaN` distance passes the bound) are not modelled. The square root is replaced by the proved comparison of squares.
- The string case of the payload `b` (`Fixed`) is modelled in the fan-out but never used by a handler.
- The asynchronous model load in `addEntities`. Insertion is synchronous here, so two rosters that arrive before a load finishes cannot create an entity twice, as they could in the source.
- Remote entities are values in a map, not shared objects. The scene graph, animation state (`lastActionId`), `Entity.update` and everything three.js does with them are not modelled.
- `serverData.uuid` is assigned together with `player.uuid` in `open` and is not a separate field. `updatePing`, the chat display, the `alert` and the reload itself are not modelled; a reload is the `reloading` flag.
- Input handling, physics (`Living.update`), the camera and the VR display. Their effect on the next move is the parameters of `Steer`. `public/script.js` is not part of this model.
- GameClient.HasMoved: its contract does not state that two different positions have a positive squared distance, so a change of position alone is not stated to make it hold; that nonlinear fact is not proved here. A positive squared distance does make it hold, and `MovedIsDistanceAboveZero` ties that to `distance > 0`.
- GameServer.Server.Connect: uuids are unbounded naturals. In the source `_client_id` is a JavaScript number, so from 2^53 connections on `++_client_id` no longer changes it and uuids repeat; the contract that a new uuid exceeds all earlier ones holds in the source only below that count.
- The lock-step model follows one client; the other sessions send arbitrary messages without a client of their own. After the client's socket closes, the model still lets its earlier messages reach the server.

Behaviour of the code that the model keeps:
- A move that reaches the server before `ready2` is ignored and hands out no key, so that client never sends another move.
- A repeated `ready` sends `open` again.
- A kicked session is not reset: `kick` leaves `hasPrepared` set, removes no listener and closes no socket. If its socket sends `ready` again, the session is registered again and still prepared. Its chat is then broadcast, its moves are judged, and it receives every broadcast, all without a new `ready2` (`ReadyAfterKick`).
- `updateEntity` copies `entity.actionId` into the remote entity, but the server's entity record calls the field `action`. Remote entities therefore get an undefined action (`None`).
