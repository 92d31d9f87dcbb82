/** Identifiers, payload values and the messages exchanged between the relay
    and its clients. Messages are modelled already decoded: the text framing
    and JSON encoding of the transport are not part of the model. */
module Protocol {

  datatype Option<T> = None | Some(value: T)

  /** A client-chosen room identifier. */
  type RoomId = string

  /** The identity of one WebSocket connection (the `ws` object). Two
      connections are the same exactly when their ids are equal. */
  type ConnId = nat

  /** The serialized board snapshot; the relay never looks inside it. */
  type Board = string

  /** One captured-piece record, mirrored verbatim from the client. */
  type Piece = string

  /** Text of the `error` reply when `join-room` names no registered room
      ("room not found"). */
  const RoomNotFound: string := "ルームが見つかりません"

  /** Text of the `error` reply when `join-room` names a room that already
      holds two players ("room is full"). */
  const RoomFull: string := "ルームが満員です"

  /** A decoded inbound message. `Other` stands for every message whose
      `type` matches none of the four handled ones, and for a payload that
      fails to parse: both fall through the handler without effect. */
  datatype Inbound =
    | CreateRoom(roomId: RoomId, board: Board)
    | JoinRoom(roomId: RoomId)
    | Move(board: Board, currentPlayer: int, captured1: seq<Piece>,
           captured2: seq<Piece>, winner: Option<int>)
    | Reset(board: Board)
    | Other

  /** A decoded outbound message. */
  datatype Outbound =
    | RoomCreated(roomId: RoomId)
    | Error(message: string)
    | GameStart(board: Board, playerRole: int)
    | OpponentMove(board: Board, currentPlayer: int, captured1: seq<Piece>,
                   captured2: seq<Piece>, winner: Option<int>)
    | GameReset(board: Board)
    | OpponentDisconnected

  /** One `send` on the connection `to`. */
  datatype Envelope = Envelope(to: ConnId, msg: Outbound)

  /** The number of envelopes in `sent` addressed to `c`. */
  function CountTo(sent: seq<Envelope>, c: ConnId): nat
  {
    if sent == [] then 0
    else CountTo(sent[..|sent| - 1], c) + (if sent[|sent| - 1].to == c then 1 else 0)
  }

  /** Counting splits over concatenation. */
  lemma {:induction false} CountToAppend(a: seq<Envelope>, b: seq<Envelope>, c: ConnId)
    ensures CountTo(a + b, c) == CountTo(a, c) + CountTo(b, c)
    decreases |b|
  {
    if b != [] {
      var init := b[..|b| - 1];
      CountToAppend(a, init, c);
      assert (a + b)[..|a + b| - 1] == a + init;
    } else {
      assert a + b == a;
    }
  }
}
