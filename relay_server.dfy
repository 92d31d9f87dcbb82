/** The relay as the process runs it: one registry object whose handlers
    update the room map and the connections' session variables in place and
    send through the transport. Sends are appended to `outbox`; whether a
    socket is open when a handler runs is the parameter `open`. Every
    handler is proved to perform exactly the transition `RelaySpec`
    describes, and so inherits the properties proved there. */
module RelayServer {
  import opened Protocol
  import opened RelaySpec

  class Relay {
    /** The process-wide room map. */
    var rooms: map<RoomId, Room>
    /** The `currentRoom`/`playerRole` variables of each connection's
        handler closure (a connection absent here has both still null). */
    var sessions: map<ConnId, Session>
    /** Every send made so far, in order. */
    var outbox: seq<Envelope>

    function Snapshot(): State
      reads this
    {
      State(rooms, sessions)
    }

    /** Every registered room holds one or two players. */
    ghost predicate Valid()
      reads this
    {
      Inv(Snapshot())
    }

    /** Process start: an empty room map, no connection state, nothing sent. */
    constructor ()
      ensures Valid()
      ensures Snapshot() == Initial && outbox == []
    {
      rooms := map[];
      sessions := map[];
      outbox := [];
    }

    method CreateRoom(sender: ConnId, roomId: RoomId, board: Board)
      requires Valid()
      modifies this
      ensures Valid()
      ensures Snapshot() == OnCreateRoom(old(Snapshot()), sender, roomId, board).next
      ensures outbox == old(outbox) + OnCreateRoom(old(Snapshot()), sender, roomId, board).sent
    {
      rooms := rooms[roomId := Room([sender], board, 1, [], [])];
      sessions := sessions[sender := Session(Some(roomId), Some(1))];
      outbox := outbox + [Envelope(sender, RoomCreated(roomId))];
    }

    method JoinRoom(sender: ConnId, open: set<ConnId>, roomId: RoomId)
      requires Valid()
      modifies this
      ensures Valid()
      ensures Snapshot() == OnJoinRoom(old(Snapshot()), sender, open, roomId).next
      ensures outbox == old(outbox) + OnJoinRoom(old(Snapshot()), sender, open, roomId).sent
    {
      if roomId !in rooms {
        outbox := outbox + [Envelope(sender, Error(RoomNotFound))];
        return;
      }
      var room := rooms[roomId];
      if |room.players| >= 2 {
        outbox := outbox + [Envelope(sender, Error(RoomFull))];
        return;
      }
      room := room.(players := room.players + [sender]);
      rooms := rooms[roomId := room];
      sessions := sessions[sender := Session(Some(roomId), Some(2))];

      // announce the game to each open player, with its positional role
      var i := 0;
      while i < |room.players|
        invariant 0 <= i <= |room.players|
        invariant rooms == old(rooms)[roomId := room]
        invariant sessions == old(sessions)[sender := Session(Some(roomId), Some(2))]
        invariant outbox == old(outbox) + GameStarts(room.players, room.board, open, i)
      {
        var client := room.players[i];
        if client in open {
          outbox := outbox + [Envelope(client, GameStart(room.board, i + 1))];
        }
        i := i + 1;
      }
    }

    method Move(sender: ConnId, open: set<ConnId>, board: Board, currentPlayer: int,
                captured1: seq<Piece>, captured2: seq<Piece>, winner: Option<int>)
      requires Valid()
      modifies this
      ensures Valid()
      ensures Snapshot() == OnMove(old(Snapshot()), sender, open, board, currentPlayer,
                                   captured1, captured2, winner).next
      ensures outbox == old(outbox) + OnMove(old(Snapshot()), sender, open, board, currentPlayer,
                                             captured1, captured2, winner).sent
    {
      var cur := SessionOf(Snapshot(), sender).currentRoom;
      if cur.None? || cur.value !in rooms {
        return;
      }
      var room := rooms[cur.value];
      rooms := rooms[cur.value := room.(board := board, currentPlayer := currentPlayer,
                                        captured1 := captured1, captured2 := captured2)];

      // relay to every open player but the sender
      var msg := OpponentMove(board, currentPlayer, captured1, captured2, winner);
      Broadcast(room.players, Some(sender), open, msg);
    }

    method Reset(sender: ConnId, open: set<ConnId>, board: Board)
      requires Valid()
      modifies this
      ensures Valid()
      ensures Snapshot() == OnReset(old(Snapshot()), sender, open, board).next
      ensures outbox == old(outbox) + OnReset(old(Snapshot()), sender, open, board).sent
    {
      var cur := SessionOf(Snapshot(), sender).currentRoom;
      if cur.None? || cur.value !in rooms {
        return;
      }
      var room := rooms[cur.value];
      rooms := rooms[cur.value := room.(board := board, currentPlayer := 1,
                                        captured1 := [], captured2 := [])];

      // tell every open player, the sender included
      Broadcast(room.players, None, open, GameReset(board));
    }

    method Close(conn: ConnId, open: set<ConnId>)
      requires Valid()
      modifies this
      ensures Valid()
      ensures Snapshot() == OnClose(old(Snapshot()), conn, open).next
      ensures outbox == old(outbox) + OnClose(old(Snapshot()), conn, open).sent
    {
      var cur := SessionOf(Snapshot(), conn).currentRoom;
      if cur.Some? && cur.value != "" {
        if cur.value in rooms {
          var room := rooms[cur.value];
          Broadcast(room.players, Some(conn), open, OpponentDisconnected);
          rooms := rooms - {cur.value};
        }
      }
    }

    /** The `message` handler: dispatch on the decoded message type; any
        other type, and a payload that does not parse, has no effect. */
    method HandleMessage(sender: ConnId, open: set<ConnId>, msg: Inbound)
      requires Valid()
      modifies this
      ensures Valid()
      ensures Snapshot() == OnMessage(old(Snapshot()), sender, open, msg).next
      ensures outbox == old(outbox) + OnMessage(old(Snapshot()), sender, open, msg).sent
    {
      match msg
      case CreateRoom(roomId, board) =>
        CreateRoom(sender, roomId, board);
      case JoinRoom(roomId) =>
        JoinRoom(sender, open, roomId);
      case Move(board, cp, cap1, cap2, winner) =>
        Move(sender, open, board, cp, cap1, cap2, winner);
      case Reset(board) =>
        Reset(sender, open, board);
      case Other =>
    }

    /** A `players.forEach` that sends `msg` to each open player, skipping
        `skip` when given. */
    method Broadcast(players: seq<ConnId>, skip: Option<ConnId>, open: set<ConnId>, msg: Outbound)
      modifies this`outbox
      ensures outbox == old(outbox) + Fanout(players, skip, open, msg)
    {
      var i := 0;
      while i < |players|
        invariant 0 <= i <= |players|
        invariant outbox == old(outbox) + Fanout(players[..i], skip, open, msg)
      {
        var client := players[i];
        if client in open && skip != Some(client) {
          outbox := outbox + [Envelope(client, msg)];
        }
        assert players[..i + 1][..i] == players[..i];
        i := i + 1;
      }
      assert players[..i] == players;
    }
  }
}
