/**
 The server's module-level state and its five request handlers, updating that state step by
 step in the order the handlers do. Each handler is proved to leave the server in the state
 the corresponding function of module Matchmaking computes from the state before it.
 */
module Server {
  import opened Matchmaking

  class GameServer {
    /** The single matchmaking slot. */
    var waitingPlayer: Option<ConnId>
    /** The room store. */
    var gameRooms: map<RoomId, Room>
    /** Each connection's stored room id. */
    var roomId: map<ConnId, RoomId>
    /** The connections whose waiting flag is set. */
    var isWaiting: set<ConnId>
    /** Each connection's outbound message queue. */
    var messages: map<ConnId, seq<Msg>>

    function Abs(): State
      reads this
    {
      State(waitingPlayer, gameRooms, roomId, isWaiting, messages)
    }

    ghost predicate Valid()
      reads this
    {
      Matchmaking.Valid(Abs())
    }

    constructor ()
      ensures Valid() && Abs() == Initial
    {
      waitingPlayer := None;
      gameRooms := map[];
      roomId := map[];
      isWaiting := {};
      messages := map[];
    }

    /** Queues `m` for delivery to `c`. */
    method Send(c: ConnId, m: Msg)
      modifies this
      ensures Abs() == Matchmaking.Send(old(Abs()), c, m)
    {
      var queued := if c in messages then messages[c] else [];
      messages := messages[c := queued + [m]];
    }

    method HandleStartMatch(c: ConnId, id: RoomId, seed: int)
      requires Valid()
      requires Pairs(Abs(), c) ==> FreshRoom(Abs(), id)
      modifies this
      ensures Valid()
      ensures Abs() == StartMatch(old(Abs()), c, id, seed)
    {
      if waitingPlayer == None {
        waitingPlayer := Some(c);
        isWaiting := isWaiting + {c};
      } else if waitingPlayer.value != c {
        var w := waitingPlayer.value;
        gameRooms := gameRooms[id := Room(w, c, seed, NewPlayer, NewPlayer)];
        Send(w, Matched(PlayerName(c), seed, true));
        Send(c, Matched(PlayerName(w), seed, false));
        roomId := roomId[w := id];
        roomId := roomId[c := id];
        waitingPlayer := None;
      }
    }

    method HandleCancelMatch(c: ConnId)
      requires Valid()
      modifies this
      ensures Valid()
      ensures Abs() == CancelMatch(old(Abs()), c)
    {
      if waitingPlayer == Some(c) {
        waitingPlayer := None;
        isWaiting := isWaiting - {c};
      }
    }

    method HandleGameUpdate(c: ConnId, score: int, remaining: int)
      requires Valid()
      modifies this
      ensures Valid()
      ensures Abs() == GameUpdate(old(Abs()), c, score, remaining)
    {
      if c !in roomId || roomId[c] !in gameRooms {
        return;
      }
      var id := roomId[c];
      var room := gameRooms[id];
      var isPlayer1 := room.player1 == c;
      var opponent := if isPlayer1 then room.player2 else room.player1;
      var playerState := if isPlayer1 then room.state1 else room.state2;
      playerState := playerState.(score := score, remaining := remaining);
      room := if isPlayer1 then room.(state1 := playerState) else room.(state2 := playerState);
      gameRooms := gameRooms[id := room];
      Send(opponent, OpponentUpdate(score, remaining));
    }

    method HandleGameComplete(c: ConnId, score: int, time: int)
      requires Valid()
      modifies this
      ensures Valid()
      ensures Abs() == GameComplete(old(Abs()), c, score, time)
    {
      if c !in roomId || roomId[c] !in gameRooms {
        return;
      }
      var id := roomId[c];
      var room := gameRooms[id];
      var isPlayer1 := room.player1 == c;
      var opponent := if isPlayer1 then room.player2 else room.player1;
      var playerState := if isPlayer1 then room.state1 else room.state2;
      playerState := playerState.(completed := true, score := score, time := Some(time));
      room := if isPlayer1 then room.(state1 := playerState) else room.(state2 := playerState);
      gameRooms := gameRooms[id := room];
      var theirScore := if isPlayer1 then room.state2.score else room.state1.score;
      var gameOverMessage := GameOver(You, score, Some(time), theirScore, None);
      var opponentMessage := GameOver(Opponent, theirScore, None, score, Some(time));
      Send(c, gameOverMessage);
      Send(opponent, opponentMessage);
      gameRooms := gameRooms - {id};
    }

    method HandlePlayerDisconnect(c: ConnId)
      requires Valid()
      modifies this
      ensures Valid()
      ensures Abs() == Disconnect(old(Abs()), c)
    {
      if waitingPlayer == Some(c) {
        waitingPlayer := None;
        return;
      }
      if c in roomId && roomId[c] in gameRooms {
        var id := roomId[c];
        var room := gameRooms[id];
        var opponent := if room.player1 == c then room.player2 else room.player1;
        Send(opponent, GameOverByDisconnect(You, DisconnectReason));
        gameRooms := gameRooms - {id};
      }
    }
  }
}
