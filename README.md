# Mini-shogi relay: room registry and message router

This project models the core of a WebSocket relay for a two-player
mini-shogi game. The relay keeps a process-wide map from room id to room. A
room holds its ordered players, the last board snapshot, the turn indicator
and the two captured-piece lists. Each connection's handler keeps two
closure variables, `currentRoom` and `playerRole`. Four inbound message types
change this state: `create-room`, `join-room`, `move` and `reset`. A
connection closing changes it too. Each change sends messages to particular
connections. The relay never interprets the board: it stores and forwards
what clients send.

The model has four modules:

- `Protocol` (`protocol.dfy`): room and connection ids, and the decoded
  inbound and outbound messages. An `Envelope` is one `send` to one
  connection. It also holds the two `error` texts, kept exactly as the code
  has them.
- `RelaySpec` (`relay_spec.dfy`): the relay state as a value (`State`: rooms
  plus per-connection `Session`s). It has one pure transition per handler
  (`OnCreateRoom`, `OnJoinRoom`, `OnMove`, `OnReset`, `OnClose`,
  `OnMessage`), each returning the next state and the sends. The two send
  loops are `Fanout` and `GameStarts`. The lemmas prove what each handler
  promises, and that every room always has one or two players.
- `RelayServer` (`relay_server.dfy`): the class `Relay`. Its methods update
  the `rooms` and `sessions` fields in place and append each send to
  `outbox`. The `forEach` send loops are `while` loops with invariants.
  Each method is proved to perform exactly the `RelaySpec` transition, so
  the properties proved there hold for it.
- `RelayScenarios` (`scenarios.dfy`): runs of several handlers. One is a
  normal game. The others show effects of the code as written: a duplicate
  `create-room` hijacks a room; a connection can join its own room; a room
  whose id is the empty string is never cleaned up.

Whether a socket is open (`readyState === 1`) is the parameter `open`: the
set of connections whose sockets are open while the handler runs. Node runs
each handler to completion on one event loop, so one handler is one method
call or one transition.

## Where the code departs from what one would expect

The model follows the code.

- One would expect `create-room` to reject an id that is already
  registered. The code (server.js:30) replaces the existing room. Any
  connection whose `currentRoom` names that id then acts on the new room
  (`RelayScenarios.DuplicateCreateHijacks`).
- One would expect `create-room` and `join-room` to be accepted only from a
  connection that is not yet in a room. The code checks neither. A connection
  can create a second room, or join its own room (`RelayScenarios.SelfJoin`).
- One would expect a player's disconnect always to remove its room. The
  code (server.js:136) cleans up only when `currentRoom` is truthy. So a
  room registered under `""` is never removed by a disconnect
  (`RelayScenarios.EmptyIdEscapesCleanup`).

## Model

| member | source | states |
|---|---|---|
| `RelaySpec.FanoutMembers` | server.js:95-106 | A send loop that skips the sender reaches exactly the open players other than the sender, each with the same message; without a skipped connection it reaches every open player |
| `RelaySpec.FanoutCount` | server.js:140-146 | A send loop sends to each connection once per seat it holds when its socket is open and it is not skipped, and never otherwise |
| `RelaySpec.GameStartsMembers` | server.js:72-80 | The `game-start` loop sends to an open player at index `i` exactly the room's board with role `i + 1`, and sends nothing else |
| `RelaySpec.GameStartsOrdered` | server.js:72-80 | The `game-start` sends go out in player order with strictly increasing roles, so no role is announced twice |
| `RelaySpec.CreateRoomEffect` | server.js:28-45 | `create-room` registers `[sender]` with the given board, turn 1 and empty captured lists, replacing any room under that id. No other room changes. The sender's state becomes (roomId, role 1) and no other connection's changes. Exactly one `room-created` goes to the sender |
| `RelaySpec.JoinRoomNotFound` | server.js:49-57 | `join-room` for an unregistered id sends one "room not found" error to the sender and changes no state |
| `RelaySpec.JoinRoomFull` | server.js:59-65 | `join-room` for a room with two or more players sends one "room full" error to the sender and changes no state |
| `RelaySpec.JoinRoomSucceeds` | server.js:67-80 | A successful `join-room` appends the sender, who becomes the second player with role 2 = its index + 1. Nothing else changes. Every open player at index `i` gets `game-start` with the room's board and role `i + 1`, and only such messages are sent, in order |
| `RelaySpec.MoveRelays` | server.js:84-107 | `move` sets board, turn and both captured lists to the payload verbatim and keeps the players, other rooms and sessions. It sends `opponent-move` with the payload (winner included) to exactly the open players other than the sender, each once per seat it holds, and nothing to the sender |
| `RelaySpec.MoveWithoutRoom` | server.js:85-86 | `move` from a connection whose `currentRoom` is unset or no longer registered changes nothing and sends nothing |
| `RelaySpec.ResetNormalises` | server.js:109-127 | `reset` sets the payload board, turn 1 and empty captured lists, whatever they were before, and keeps everything else. It sends `game-reset` with the board to every open player, the sender included, once per seat |
| `RelaySpec.ResetWithoutRoom` | server.js:110-111 | `reset` from a connection without a registered room changes nothing and sends nothing |
| `RelaySpec.CloseRemovesRoom` | server.js:134-151 | Closing a connection whose non-empty `currentRoom` is registered deletes exactly that room and leaves other rooms and sessions alone. Each other open player gets `opponent-disconnected` once per seat; the closer gets nothing |
| `RelaySpec.CloseWithoutRoom` | server.js:136-138 | Closing a connection with no `currentRoom`, an empty one, or one whose room is gone changes nothing and sends nothing |
| `RelaySpec.ApplyPreservesInv` | server.js:28-151 | Every handler run keeps every registered room at one or two players |
| `RelaySpec.RunPreservesInv` | server.js:19-152 | Any sequence of handler runs keeps every registered room at one or two players |
| `RelaySpec.ReachableRoomsHoldOneOrTwo` | server.js:13-152 | From the empty registry at process start, whatever messages and disconnects arrive, every registered room has one or two players |
| `RelayServer.Relay.constructor` | server.js:13-22 | The relay starts with no rooms, every connection unjoined, nothing sent, and the room-size invariant holding |
| `RelayServer.Relay.CreateRoom` | server.js:28-45 | The in-place handler leaves exactly the state and sends of `OnCreateRoom` and keeps the invariant |
| `RelayServer.Relay.JoinRoom` | server.js:47-82 | The in-place handler, with its `game-start` loop, leaves exactly the state and sends of `OnJoinRoom` and keeps the invariant |
| `RelayServer.Relay.Move` | server.js:84-107 | The in-place handler, with its relay loop, leaves exactly the state and sends of `OnMove` and keeps the invariant |
| `RelayServer.Relay.Reset` | server.js:109-127 | The in-place handler, with its broadcast loop, leaves exactly the state and sends of `OnReset` and keeps the invariant |
| `RelayServer.Relay.Close` | server.js:134-151 | The in-place close handler notifies and then deletes, leaving exactly the state and sends of `OnClose` and keeping the invariant |
| `RelayServer.Relay.HandleMessage` | server.js:24-132 | Dispatch on the message type matches `OnMessage`; an unparsable payload or unknown type changes nothing and sends nothing |
| `RelayServer.Relay.Broadcast` | server.js:119-126 | The `players.forEach` send loop appends to the outbox exactly the sends `Fanout` describes |
| `RelayScenarios.TwoPlayerGame` | server.js:28-151 | Create, join, move, disconnect: the players get roles 1 and 2 in join order with the creator's board. A move reaches only the opponent. The first disconnect tells the survivor once and removes the room |
| `RelayScenarios.DisconnectEndsRoom` | server.js:134-151 | In a room of two distinct players, either one closing (first or second seat) sends exactly one `opponent-disconnected`, to the other if open, and nothing to the closer. Afterwards a `move` with any payload, or a `reset`, from the survivor finds nothing |
| `RelayScenarios.DuplicateCreateHijacks` | server.js:28-38 | A second `create-room` under a registered id replaces the room. The first creator's stale `currentRoom` then lets its `move` overwrite the new room and reach the new creator, and its disconnect deletes the new room |
| `RelayScenarios.SelfJoin` | server.js:47-80 | A creator that joins its own room fills both seats, gets `game-start` twice with roles 1 and 2, and its later moves reach nobody |
| `RelayScenarios.EmptyIdEscapesCleanup` | server.js:134-151 | A room registered under the empty id survives its creator's disconnect with no messages sent, and still accepts moves |

## Left out

- The Express app, CORS and the `GET /` health route (server.js:6-7, 15-17): HTTP plumbing with no state.
- Creating the HTTP and WebSocket servers, choosing the port and listening (server.js:9-10, 154-157): process I/O and environment configuration.
- `JSON.parse`, `JSON.stringify` and the `try`/`catch`: messages are modelled already decoded. A payload that fails to parse, a non-object payload and an unknown `type` are all `Inbound.Other`. Each throws or falls through before any state changes, so it changes nothing and sends nothing.
- Dynamic JSON typing: room ids are strings, `currentPlayer` and `winner` are integers (a missing `winner` is `None`), and captured lists are sequences of opaque records. The code would also pass through any other JSON value, or `undefined` for a missing field, including a `null` or numeric room id. The model does not cover those values. One consequence is lost this way: an unjoined connection has `currentRoom === null` (server.js:21), so its `move` or `reset` looks up `rooms.get(null)` (server.js:85, 110) and acts on a room that some client created with `"roomId": null`. The model writes the unset `currentRoom` as `None`, which names no room, so `MoveWithoutRoom` and `ResetWithoutRoom` hold for unjoined connections only because null room ids are excluded. A missing `roomId` is a separate case the model also does not cover: a connection that creates or joins with it gets `currentRoom === undefined`, its `move` and `reset` reach the room stored under `undefined` (a different `Map` key from `null`), and, `undefined` being falsy, its close never deletes that room (server.js:136), as with `""`.
- MoveWithoutRoom: the "no room" case covers a null `currentRoom` only because no room can be registered under a null id in the model; in the code an unjoined connection's `move` reaches a room created with `"roomId": null`.
- ResetWithoutRoom: the same restriction as `MoveWithoutRoom`, for `reset` (server.js:110).
- The socket itself: `send` is an append to `outbox` (delivery and ordering on the wire are not modelled), and `readyState === 1` is membership in the `open` set given to each handler.
- Logging (`console.log`, `console.error`): no behavioural content.
- Rooms are values in the `rooms` map rather than shared objects. No handler keeps a reference to a room after it returns, and a replaced or deleted room is unreachable. So updating the map entry has the same effect as the code's in-place field writes and `push`.
- Concurrency: Node runs each handler to completion on one event loop, so each handler is one atomic step. Interleavings inside a handler do not exist and are not modelled.
- A closed connection's closure variables stay as they were. The model keeps its session entry unchanged, because a closed socket delivers no further messages.
- The stray Markdown fence at server.js:158 is not code.
