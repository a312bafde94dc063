# Matchmaking and room lifecycle of a two-player tile-matching server

This project models the core of the game server in `server.js`. It covers:

- the single matchmaking slot (`waitingPlayer`);
- the room store (`gameRooms`), the rooms in it, and each player's progress within a room;
- the five request handlers that change this state: start match, cancel match, game update,
  game complete and player disconnect;
- the messages each handler queues for each connection.

The source has one JavaScript event loop. Each handler runs to the end before the next one
starts, so the model is sequential.

Layout:

- `matchmaking.dfy`, module `Matchmaking`: the data model and the invariant `Valid`. It has one
  function per handler. Each function maps the state before a request to the state after it.
  Its `ensures` clauses say what the handler promises: which rooms appear or disappear, what
  each connection is sent, and that everything else is unchanged.
- `server.dfy`, module `Server`: class `GameServer`. Its fields hold the server's module-level
  state. Each `Handle*` method updates the fields step by step, in the same order as the
  JavaScript. Each method is proved to end in the state that the matching `Matchmaking`
  function gives.
- `runs.dfy`, module `Runs`: runs, meaning sequences of requests. It proves that every run
  keeps the invariant and only appends to outboxes. It also proves a per-connection count:
  no connection is told a game is over more often than it was told it had been matched. This
  count alone does not say which room an ending belongs to. Finally, it proves that a removed
  room that a connection still names stays removed for as long as that connection names it.
  Through any such run, that connection's updates, completions and disconnect change no room
  and send nothing about it. Two further lemmas state the same for the single request right
  after a completion or a disconnect.
- `scenarios.dfy`, module `Scenarios`: short request sequences with their outcomes, including
  a complete match between conn1 and conn2 from start to finish.

Modelling choices:

- **Connections and rooms.** Both are string identifiers (`ConnId`, `RoomId`). The code compares
  connection objects by identity; the model compares identifiers instead.
- **Per-connection fields.** Each connection's `roomId`, waiting flag and `messages` array
  become maps (or a set) in the state, keyed by connection id:
  - `roomOf` holds the stored room id. It is set when the connection is paired and never cleared.
  - `flagged` holds the connections whose waiting flag is set.
  - `outbox` holds each connection's message queue. `send` appends to that queue.
- **Messages.** They are values of the datatype `Msg`, not JSON strings. A JSON `null` is `None`.
  The disconnect message `{winner:'you', reason:'opponent_disconnected'}` is its own constructor,
  `GameOverByDisconnect`.
- **Room id and seed.** The caller supplies both. In the code they come from `Math.random` and
  `Date.now()`. When a start request pairs, the room id must be fresh: no live room has it, and
  no connection has it stored.
- **Rooms and player states.** Both are values. A handler changes a room by replacing that
  room's entry in the store. The code changes the room object in place, but only the store refers
  to that object, so the two have the same effect.
- **The waiting slot.** It is an `Option`, so it holds at most one connection by construction.
- **Completion record.** A completion marks the reporter's slot as completed and records the
  time, as the code does, and then removes the room. So that record is never observed again.

Where the code differs from the invariants one would expect of it, the model follows the code:

- **One connection can be in two live rooms.** One would expect a connection to belong to at
  most one room at a time, but `handleStartMatch` never checks whether the caller is already in a room.
  So a player in a live room can start again and be paired a second time. Both rooms stay live,
  and the first room's opponent still relays to that player (`Scenarios.ConnectionInTwoRooms`).
- **The stored room id is never cleared.** After teardown it names a room that no longer exists,
  and every lookup through it finds nothing.
- **The waiting flag stays set.** It stays set after pairing and after a disconnect. Only a
  cancel clears it.
- **A waiting disconnect changes only the slot.** If the waiting connection is also in a live
  room, that room survives the disconnect.

## Model

| member | source | states |
|---|---|---|
| Matchmaking.Lookup | server.js:90-94 | In a valid state, a room found through the caller's stored id has the caller as one of its two distinct players, so the opponent chosen from it is never the caller. A connection never paired, or whose room is gone, finds none. |
| Matchmaking.PlayerNameInjective | server.js:59-66 | Distinct connections are announced under distinct `opponentName`s, so the name identifies the opponent. |
| Matchmaking.SlotOfOpponent | server.js:118-136 | For a player of a two-player room, its own state (the slot chosen as at line 97 and line 118) and its opponent's state (the slot read at lines 129 and 136) are the two different slots. |
| Matchmaking.InitialValid | server.js:8-10 | The initial state has an empty slot, no rooms and no messages, and satisfies the invariant. |
| Matchmaking.OpponentOf | server.js:93-94 | The opponent is always a player of the room. If `c` is a player of a room with two distinct players, the opponent is the other player, never `c`. |
| Matchmaking.WithSlot | server.js:97-99 | Writing `c`'s player state changes only that slot: the players, the seed and the other player's state are unchanged. |
| Matchmaking.Send | server.js:23-25 | Sending appends exactly one message to the end of the recipient's outbox. Every other outbox and all game state are unchanged. |
| Matchmaking.StartMatch | server.js:35-78 | Empty slot: `c` waits and is flagged, and no room or message is created. `c` already waiting: nothing changes. Another connection `w` waiting: the slot is emptied and exactly one room is added. That room pairs `w` (player one) with `c` (player two), never a connection with itself, with one seed and both players at score 0 and 64 remaining. `w` gets `matched` with isFirstPlayer true, `c` gets it with false, both with that seed, and nobody else gets a message. Both connections' room ids name the new room, and every other room is unchanged. The invariant is kept. |
| Matchmaking.CancelMatch | server.js:81-86 | If `c` is waiting, the slot is emptied and `c`'s flag cleared, and rooms, room ids and outboxes are unchanged. Otherwise nothing changes. |
| Matchmaking.GameUpdate | server.js:89-107 | Without a live room nothing changes. Otherwise only the sender's slot takes the new score and remaining, and the opponent's slot, the players, the seed and every other room are unchanged. Exactly one `opponentUpdate` goes to the opponent, who is not the sender, and nothing goes to anyone else, the sender included. |
| Matchmaking.GameComplete | server.js:110-147 | Without a live room nothing changes. Otherwise the reporter gets `gameOver{winner: you}` with its own score and time and the opponent's stored score, and the opponent gets `gameOver{winner: opponent}` with its stored score and the reporter's score and time. Exactly that room is removed, whatever the scores are, and no other outbox changes. |
| Matchmaking.Disconnect | server.js:150-172 | A waiting `c` only empties the slot: no room, flag or outbox changes. Otherwise, if `c` has a live room, exactly one `gameOver{winner: you, reason: opponent_disconnected}` goes to the opponent, nothing goes to `c`, and exactly that room is removed. With neither, nothing changes. |
| Server.GameServer.constructor | server.js:8-10 | A new server holds the initial state and satisfies the invariant. |
| Server.GameServer.Send | server.js:23-25 | The fields change as `Matchmaking.Send` says: one message is appended to `c`'s queue. |
| Server.GameServer.HandleStartMatch | server.js:35-78 | Keeps the invariant and leaves the server in the state `Matchmaking.StartMatch` gives from the old one. |
| Server.GameServer.HandleCancelMatch | server.js:81-86 | Keeps the invariant and leaves the server in the state `Matchmaking.CancelMatch` gives from the old one. |
| Server.GameServer.HandleGameUpdate | server.js:89-107 | Keeps the invariant and leaves the server in the state `Matchmaking.GameUpdate` gives from the old one. |
| Server.GameServer.HandleGameComplete | server.js:110-147 | Keeps the invariant and leaves the server in the state `Matchmaking.GameComplete` gives from the old one. |
| Server.GameServer.HandlePlayerDisconnect | server.js:150-172 | Keeps the invariant and leaves the server in the state `Matchmaking.Disconnect` gives from the old one. |
| Runs.Step | server.js:35-172 | Each request keeps the invariant and only appends to outboxes. A cancel, a start that only queues, and a request without a live room leave the room store as it was. Any other request leaves every room except the one it touches present or absent as before, with the same value. |
| Runs.Run | server.js:35-172 | Every run of requests from a valid state ends in a valid state. |
| Runs.OutboxesOnlyGrow | server.js:23-25 | Over any run, each connection's earlier messages stay a prefix of its later ones: nothing is reordered or withdrawn. |
| Runs.StartKeepsBalance | server.js:35-78 | A start request keeps each connection's count of game-over messages plus live rooms at or below its count of matched messages. |
| Runs.UpdateKeepsBalance | server.js:89-107 | An update keeps that balance. |
| Runs.CompleteKeepsBalance | server.js:110-147 | A completion keeps that balance. |
| Runs.LeaveKeepsBalance | server.js:150-172 | A disconnect keeps that balance. |
| Runs.StepKeepsBalance | server.js:35-172 | Every request keeps that balance. |
| Runs.RunKeepsBalance | server.js:35-172 | Every run keeps that balance. |
| Runs.EndingsNeverExceedMatches | server.js:142-170 | From a fresh server, over any run, no connection receives more game-over messages than matched messages. |
| Runs.CompletedRoomIsClosed | server.js:89-147 | Right after a completion, any connection whose stored room id names the removed room has no live room. Its next update or completion changes nothing, and its next disconnect sends nothing and removes no room. |
| Runs.AbandonedRoomIsClosed | server.js:89-172 | Right after a disconnect tears a room down, the same holds for the next request of every connection whose stored room id names that room. |
| Runs.StaleIdStaysStale | server.js:35-78 | If a connection's stored room id names no live room, one request never brings that room back while the connection keeps the id. The connection always keeps some stored id. |
| Runs.StaleIdStaysClosed | server.js:35-172 | Over any run in which a connection keeps a stored room id that names no live room, that room stays removed. At the end of the run that connection finds no room: its update or completion changes nothing, and its disconnect sends nothing and removes no room. |
| Scenarios.TwoStartsPair | server.js:35-78 | Two distinct connections starting in turn from an empty slot share exactly one new room with one seed. The first gets isFirstPlayer true, the second false. |
| Scenarios.StartTwiceQueuesOnce | server.js:35-40 | Starting twice alone leaves that one connection queued, with no room and no message. |
| Scenarios.DisconnectFreesSlot | server.js:150-155 | A queued connection that disconnects frees the slot. The next connection to start waits alone. |
| Scenarios.ReportedMatch | server.js:35-147 | The full conn1/conn2 match: both players are matched with one seed, conn1's 10/50 report reaches conn2 only, and conn2's completion at 64 points and time 120 sends both game-over messages with the stored score 10. The room is then gone. |
| Scenarios.ConnectionInTwoRooms | server.js:35-107 | A connection already in a live room can be paired again and be a player of two live rooms. The first room's opponent still relays updates to it. |

## Left out

- Express setup, JSON body parsing, the `/api/websocket` connect endpoint and `server.listen`.
  These are transport plumbing. The file also uses `connections` and `server` without defining them.
- Room and connection id generation with `Math.random`. The caller supplies a room id
  instead. The model requires it to be fresh, so id collisions are not modelled.
- `Date.now()` as the seed. The caller supplies the seed.
- `JSON.stringify` of messages. Messages are datatype values.
- The `time` field as a JavaScript number. It is an `int`.
- Concurrency. The event loop runs each handler to completion, so the model is one request at a time.
- Delivery to clients (the polling that drains `messages`). The outbox only records what was queued.
- Update in place of room objects. A room is a value and is replaced in the store. No other
  reference to a room exists, so nothing is lost.
- Runs.Run, Runs.EndingsNeverExceedMatches: these cover runs whose pairing start requests all
  carry a fresh room id, as `Runs.Admissible` says. A colliding random id is not modelled.
- Runs.EndingsNeverExceedMatches: the count is per connection, not per room. It does not tie
  each game-over message to the room it ends. That a removed room stays removed is stated
  separately, by `Runs.StaleIdStaysClosed`.
