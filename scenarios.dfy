/** Multi-step behaviour of the relay: the ordinary life of a room, and the
    consequences of the handlers checking neither duplicate room ids nor
    whether a connection is already in a room. */
module RelayScenarios {
  import opened Protocol
  import opened RelaySpec

  /** Create, join, move, disconnect: both players learn their roles in join
      order and the creator's board; a move reaches only the opponent; the
      first disconnect tells the survivor once and removes the room. */
  lemma TwoPlayerGame(a: ConnId, b: ConnId, id: RoomId, b0: Board, b1: Board)
    requires a != b && id != ""
    ensures var s1 := OnCreateRoom(Initial, a, id, b0);
      var s2 := OnJoinRoom(s1.next, b, {a, b}, id);
      var s3 := OnMove(s2.next, a, {a, b}, b1, 2, [], [], None);
      var s4 := OnClose(s3.next, b, {a});
      && s1.sent == [Envelope(a, RoomCreated(id))]
      && id in s2.next.rooms && s2.next.rooms[id].players == [a, b]
      && SessionOf(s2.next, a).playerRole == Some(1) && SessionOf(s2.next, b).playerRole == Some(2)
      && s2.sent == [Envelope(a, GameStart(b0, 1)), Envelope(b, GameStart(b0, 2))]
      && id in s3.next.rooms && s3.next.rooms[id].board == b1 && s3.next.rooms[id].currentPlayer == 2
      && s3.sent == [Envelope(b, OpponentMove(b1, 2, [], [], None))]
      && s4.sent == [Envelope(a, OpponentDisconnected)]
      && id !in s4.next.rooms
  {
    var s1 := OnCreateRoom(Initial, a, id, b0);
    var s2 := OnJoinRoom(s1.next, b, {a, b}, id);
    assert s2.next.rooms[id].players == [a, b];
    assert GameStarts([a, b], b0, {a, b}, 1) == [Envelope(a, GameStart(b0, 1))];
    var s3 := OnMove(s2.next, a, {a, b}, b1, 2, [], [], None);
    var msg := OpponentMove(b1, 2, [], [], None);
    assert [a, b][..1] == [a] && [a][..0] == [];
    assert Fanout([a], Some(a), {a, b}, msg) == [];
    assert s3.next.rooms[id].players == [a, b];
    assert Fanout([a], Some(b), {a}, OpponentDisconnected) == [Envelope(a, OpponentDisconnected)];
  }

  /** Closing one player of a two-player room sends exactly one
      `opponent-disconnected`, to the other player if its socket is open,
      and after that neither a `move` (whatever its payload) nor a `reset`
      from the survivor finds a room. */
  lemma DisconnectEndsRoom(s: State, a: ConnId, b: ConnId, open: set<ConnId>, id: RoomId,
                           board: Board, cp: int, cap1: seq<Piece>, cap2: seq<Piece>,
                           winner: Option<int>, t: Step)
    requires a != b && id != "" && id in s.rooms
    requires s.rooms[id].players == [a, b] || s.rooms[id].players == [b, a]
    requires SessionOf(s, a).currentRoom == Some(id) && SessionOf(s, b).currentRoom == Some(id)
    requires t == OnClose(s, b, open)
    ensures t.sent == if a in open then [Envelope(a, OpponentDisconnected)] else []
    ensures CountTo(t.sent, a) == (if a in open then 1 else 0) && CountTo(t.sent, b) == 0
    ensures id !in t.next.rooms
    ensures OnMove(t.next, a, open, board, cp, cap1, cap2, winner) == Step(t.next, [])
    ensures OnReset(t.next, a, open, board) == Step(t.next, [])
  {
    CloseRemovesRoom(s, b, open, id, t);
    MoveWithoutRoom(t.next, a, open, board, cp, cap1, cap2, winner);
    ResetWithoutRoom(t.next, a, open, board);
    if s.rooms[id].players == [a, b] {
      // the second seat closes
      assert multiset([a, b])[a] == 1;
      assert [a, b][..1] == [a] && [a][..0] == [];
      assert Fanout([a], Some(b), open, OpponentDisconnected)
          == if a in open then [Envelope(a, OpponentDisconnected)] else [];
    } else {
      // the first seat closes
      assert multiset([b, a])[a] == 1;
      assert [b, a][..1] == [b] && [b][..0] == [];
      assert Fanout([b], Some(b), open, OpponentDisconnected) == [];
    }
  }

  /** `create-room` with an id that is already registered replaces the room.
      The first creator keeps `currentRoom` pointing at the id although it is
      no longer a player there, and its next `move` overwrites the new
      room's state and is relayed to the new creator; its disconnect deletes
      the new room. */
  lemma DuplicateCreateHijacks(a: ConnId, b: ConnId, open: set<ConnId>, id: RoomId,
                               b0: Board, b1: Board, b2: Board)
    requires a != b && id != "" && b in open
    ensures var s1 := OnCreateRoom(Initial, a, id, b0);
      var s2 := OnCreateRoom(s1.next, b, id, b1);
      var m := OnMove(s2.next, a, open, b2, 2, [], [], None);
      var x := OnClose(s2.next, a, open);
      && SessionOf(s2.next, a).currentRoom == Some(id)
      && id in s2.next.rooms && s2.next.rooms[id].players == [b]
      && id in m.next.rooms && m.next.rooms[id] == Room([b], b2, 2, [], [])
      && m.sent == [Envelope(b, OpponentMove(b2, 2, [], [], None))]
      && id !in x.next.rooms
      && x.sent == [Envelope(b, OpponentDisconnected)]
  {
    var s1 := OnCreateRoom(Initial, a, id, b0);
    var s2 := OnCreateRoom(s1.next, b, id, b1);
    assert s2.next.rooms[id].players == [b];
    assert SessionOf(s2.next, a) == Session(Some(id), Some(1));
    assert [b][..0] == [];
    assert Fanout([b], Some(a), open, OpponentMove(b2, 2, [], [], None))
        == [Envelope(b, OpponentMove(b2, 2, [], [], None))];
    assert Fanout([b], Some(a), open, OpponentDisconnected) == [Envelope(b, OpponentDisconnected)];
  }

  /** `join-room` does not check that the joiner is unjoined: the creator
      can join its own room, fill both seats, be told both roles, and then
      its moves reach nobody. */
  lemma SelfJoin(a: ConnId, id: RoomId, b0: Board, b1: Board)
    ensures var s1 := OnCreateRoom(Initial, a, id, b0);
      var s2 := OnJoinRoom(s1.next, a, {a}, id);
      var m := OnMove(s2.next, a, {a}, b1, 2, [], [], None);
      && id in s2.next.rooms && s2.next.rooms[id].players == [a, a]
      && SessionOf(s2.next, a) == Session(Some(id), Some(2))
      && s2.sent == [Envelope(a, GameStart(b0, 1)), Envelope(a, GameStart(b0, 2))]
      && m.sent == []
      && id in m.next.rooms && m.next.rooms[id].board == b1
  {
    var s1 := OnCreateRoom(Initial, a, id, b0);
    var s2 := OnJoinRoom(s1.next, a, {a}, id);
    assert s2.next.rooms[id].players == [a, a];
    assert GameStarts([a, a], b0, {a}, 1) == [Envelope(a, GameStart(b0, 1))];
    assert [a, a][..1] == [a] && [a][..0] == [];
    assert Fanout([a], Some(a), {a}, OpponentMove(b1, 2, [], [], None)) == [];
  }

  /** The close handler only cleans up when `currentRoom` is truthy, so a
      room registered under the empty id outlives its creator's disconnect
      and keeps accepting moves. */
  lemma EmptyIdEscapesCleanup(a: ConnId, b: ConnId, open: set<ConnId>, b0: Board, b1: Board)
    requires a != b
    ensures var s1 := OnCreateRoom(Initial, a, "", b0);
      var s2 := OnJoinRoom(s1.next, b, open, "");
      var x := OnClose(s2.next, a, open - {a});
      var m := OnMove(x.next, b, open - {a}, b1, 1, [], [], None);
      && x == Step(s2.next, [])
      && "" in x.next.rooms && x.next.rooms[""].players == [a, b]
      && "" in m.next.rooms && m.next.rooms[""].board == b1
  {
    var s1 := OnCreateRoom(Initial, a, "", b0);
    var s2 := OnJoinRoom(s1.next, b, open, "");
    assert s2.next.rooms[""].players == [a, b];
  }
}
