/**
 The matchmaking queue and room lifecycle of a two-player tile-matching game server, as
 values. One function per request handler maps the server state before the request to the
 state after it; the class in module Server performs the same updates in place and is proved
 to agree with these functions.

 Connections and rooms are known only by their identifiers. The message each handler sends is
 appended to the recipient's outbox, in the order the handler sends it.
 */
module Matchmaking {

  datatype Option<T> = None | Some(value: T)

  type ConnId = string
  type RoomId = string

  /** Tiles each player still has to clear when a room is created. */
  const InitialRemaining: int := 64

  /** The `reason` carried by the game-over message that a disconnect produces. */
  const DisconnectReason: string := "opponent_disconnected"

  /** The `winner` field of a game-over message, seen from its recipient. */
  datatype Winner = You | Opponent

  /** The outbound messages, one constructor per shape the server serialises. */
  datatype Msg =
    | Matched(opponentName: string, seed: int, isFirstPlayer: bool)
    | OpponentUpdate(score: int, remaining: int)
    | GameOver(winner: Winner, myScore: int, myTime: Option<int>,
               opponentScore: int, opponentTime: Option<int>)
    | GameOverByDisconnect(winner: Winner, reason: string)

  /** One player's progress inside a room; `time` is absent until that player completes. */
  datatype PlayerState = PlayerState(score: int, remaining: int, completed: bool, time: Option<int>)

  const NewPlayer: PlayerState := PlayerState(0, InitialRemaining, false, None)

  datatype Room = Room(player1: ConnId, player2: ConnId, seed: int,
                       state1: PlayerState, state2: PlayerState)

  /**
   The whole mutable state of the server:
   - `waiting`: the single matchmaking slot;
   - `rooms`: the room store, by room id;
   - `roomOf`: the room id each connection was last paired into (never cleared);
   - `flagged`: the connections whose waiting flag is set;
   - `outbox`: the messages sent to each connection, oldest first.
   */
  datatype State = State(
    waiting: Option<ConnId>,
    rooms: map<RoomId, Room>,
    roomOf: map<ConnId, RoomId>,
    flagged: set<ConnId>,
    outbox: map<ConnId, seq<Msg>>)

  const Initial: State := State(None, map[], map[], {}, map[])

  /** Everything sent to `c` so far. */
  function Outbox(s: State, c: ConnId): seq<Msg> {
    if c in s.outbox then s.outbox[c] else []
  }

  /**
   The live room that `c`'s stored room id names, if there is one. In a valid state the room
   found has `c` as one of its two distinct players, so the opponent it yields is someone else.
   */
  function Lookup(s: State, c: ConnId): (r: Option<RoomId>)
    ensures r.Some? ==> c in s.roomOf && r.value == s.roomOf[c] && r.value in s.rooms
    ensures r.None? ==> c !in s.roomOf || s.roomOf[c] !in s.rooms
    ensures Valid(s) && r.Some? ==>
      && IsPlayer(s.rooms[r.value], c)
      && s.rooms[r.value].player1 != s.rooms[r.value].player2
      && OpponentOf(s.rooms[r.value], c) != c
  {
    if c in s.roomOf && s.roomOf[c] in s.rooms then Some(s.roomOf[c]) else None
  }

  /** The `opponentName` a player is announced by: the word `Player`, a space, then its id. */
  function PlayerName(c: ConnId): (n: string)
    ensures |n| == |c| + 7 && n[..7] == "Player " && n[7..] == c
  {
    "Player " + c
  }

  /** Distinct connections are announced by distinct names. */
  lemma PlayerNameInjective(a: ConnId, b: ConnId)
    ensures PlayerName(a) == PlayerName(b) ==> a == b
  {
  }

  predicate IsPlayer(r: Room, c: ConnId) {
    c == r.player1 || c == r.player2
  }

  /** The connection a handler treats as `c`'s opponent: player two unless `c` is player one. */
  function OpponentOf(r: Room, c: ConnId): (o: ConnId)
    ensures IsPlayer(r, o)
    ensures IsPlayer(r, c) && r.player1 != r.player2 ==> o != c
  {
    if r.player1 == c then r.player2 else r.player1
  }

  /** The player state a handler treats as `c`'s: slot one if `c` is player one, else slot two. */
  function SlotOf(r: Room, c: ConnId): (p: PlayerState)
    ensures c == r.player1 ==> p == r.state1
    ensures c == r.player2 && r.player1 != r.player2 ==> p == r.state2
  {
    if r.player1 == c then r.state1 else r.state2
  }

  /** For a player of a two-player room, its opponent's state is the other slot from its own. */
  lemma SlotOfOpponent(r: Room, c: ConnId)
    requires IsPlayer(r, c) && r.player1 != r.player2
    ensures SlotOf(r, OpponentOf(r, c)) == (if c == r.player1 then r.state2 else r.state1)
    ensures SlotOf(r, c) == (if c == r.player1 then r.state1 else r.state2)
  {
  }

  /** Replaces the player state `SlotOf(r, c)` designates. */
  function WithSlot(r: Room, c: ConnId, p: PlayerState): (r': Room)
    ensures r'.player1 == r.player1 && r'.player2 == r.player2 && r'.seed == r.seed
    ensures SlotOf(r', c) == p
    ensures IsPlayer(r, c) && r.player1 != r.player2 ==> SlotOf(r', OpponentOf(r, c)) == SlotOf(r, OpponentOf(r, c))
  {
    if r.player1 == c then r.(state1 := p) else r.(state2 := p)
  }

  /** Appends `m` to the outbox of `c`. */
  function Send(s: State, c: ConnId, m: Msg): (t: State)
    ensures Outbox(t, c) == Outbox(s, c) + [m]
    ensures forall d :: d != c ==> Outbox(t, d) == Outbox(s, d)
    ensures t.waiting == s.waiting && t.rooms == s.rooms && t.roomOf == s.roomOf && t.flagged == s.flagged
  {
    s.(outbox := s.outbox[c := Outbox(s, c) + [m]])
  }

  /**
   The invariant every reachable state keeps: no room pairs a connection with itself, a
   connection whose stored room id names a live room is one of that room's players, and the
   waiting connection has its waiting flag set.
   */
  ghost predicate Valid(s: State) {
    && (forall id :: id in s.rooms ==> s.rooms[id].player1 != s.rooms[id].player2)
    && (forall c :: c in s.roomOf && s.roomOf[c] in s.rooms ==> IsPlayer(s.rooms[s.roomOf[c]], c))
    && (s.waiting.Some? ==> s.waiting.value in s.flagged)
  }

  /** A room id no live room has and no connection has stored. */
  predicate FreshRoom(s: State, id: RoomId) {
    id !in s.rooms && id !in s.roomOf.Values
  }

  /** A start request from `c` pairs it: some other connection is waiting. */
  predicate Pairs(s: State, c: ConnId) {
    s.waiting.Some? && s.waiting.value != c
  }

  /** Every room except `id` is in `t` exactly when it is in `s`, and with the same value. */
  ghost predicate OtherRoomsUnchanged(s: State, t: State, id: RoomId) {
    forall r :: r != id ==> (r in s.rooms <==> r in t.rooms) && (r in s.rooms ==> t.rooms[r] == s.rooms[r])
  }

  lemma InitialValid()
    ensures Valid(Initial)
    ensures Initial.waiting == None && Initial.rooms == map[]
    ensures forall c :: Outbox(Initial, c) == []
  {
  }

  /**
   Start request from `c`. `id` and `seed` are the room id and seed the server would generate;
   they are used only when `c` is paired.
   */
  function StartMatch(s: State, c: ConnId, id: RoomId, seed: int): (t: State)
    requires Valid(s)
    requires Pairs(s, c) ==> FreshRoom(s, id)
    ensures Valid(t)
    // Empty slot: `c` waits, flagged; no room, no message.
    ensures s.waiting == None ==>
      && t.waiting == Some(c) && c in t.flagged && t.flagged == s.flagged + {c}
      && t.rooms == s.rooms && t.roomOf == s.roomOf && t.outbox == s.outbox
    // `c` is already the waiting connection: nothing changes.
    ensures s.waiting == Some(c) ==> t == s
    // Another connection `w` waits: exactly one new room pairs `w` (first) with `c`.
    ensures Pairs(s, c) ==>
      var w := s.waiting.value;
      && t.waiting == None
      && id !in s.rooms && id in t.rooms && t.rooms.Keys == s.rooms.Keys + {id}
      && OtherRoomsUnchanged(s, t, id)
      && t.rooms[id] == Room(w, c, seed, NewPlayer, NewPlayer)
      && t.rooms[id].player1 != t.rooms[id].player2
      && Outbox(t, w) == Outbox(s, w) + [Matched(PlayerName(c), seed, true)]
      && Outbox(t, c) == Outbox(s, c) + [Matched(PlayerName(w), seed, false)]
      && (forall d :: d != w && d != c ==> Outbox(t, d) == Outbox(s, d))
      && Lookup(t, w) == Some(id) && Lookup(t, c) == Some(id)
      && (forall d :: d != w && d != c ==> (d in t.roomOf <==> d in s.roomOf))
      && (forall d :: d in s.roomOf && d != w && d != c ==> t.roomOf[d] == s.roomOf[d])
      && t.flagged == s.flagged
  {
    match s.waiting
    case None => s.(waiting := Some(c), flagged := s.flagged + {c})
    case Some(w) =>
      if w == c then s
      else
        var s1 := s.(rooms := s.rooms[id := Room(w, c, seed, NewPlayer, NewPlayer)]);
        var s2 := Send(s1, w, Matched(PlayerName(c), seed, true));
        var s3 := Send(s2, c, Matched(PlayerName(w), seed, false));
        s3.(roomOf := s3.roomOf[w := id][c := id], waiting := None)
  }

  /** Cancel request from `c`: only the waiting connection can leave the slot. */
  function CancelMatch(s: State, c: ConnId): (t: State)
    requires Valid(s)
    ensures Valid(t)
    ensures s.waiting == Some(c) ==>
      && t.waiting == None && c !in t.flagged && t.flagged == s.flagged - {c}
      && t.rooms == s.rooms && t.roomOf == s.roomOf && t.outbox == s.outbox
    ensures s.waiting != Some(c) ==> t == s
  {
    if s.waiting == Some(c) then s.(waiting := None, flagged := s.flagged - {c}) else s
  }

  /** Progress report from `c`: recorded in `c`'s slot and relayed to the opponent only. */
  function GameUpdate(s: State, c: ConnId, score: int, remaining: int): (t: State)
    requires Valid(s)
    ensures Valid(t)
    // No live room: the report is dropped.
    ensures Lookup(s, c).None? ==> t == s
    ensures Lookup(s, c).Some? ==>
      var id := Lookup(s, c).value;
      var r := s.rooms[id];
      var o := OpponentOf(r, c);
      && IsPlayer(r, c) && o != c
      && t.rooms.Keys == s.rooms.Keys && OtherRoomsUnchanged(s, t, id)
      && t.rooms[id].player1 == r.player1 && t.rooms[id].player2 == r.player2
      && t.rooms[id].seed == r.seed
      && SlotOf(t.rooms[id], c) == SlotOf(r, c).(score := score, remaining := remaining)
      && SlotOf(t.rooms[id], o) == SlotOf(r, o)
      && Outbox(t, o) == Outbox(s, o) + [OpponentUpdate(score, remaining)]
      && Outbox(t, c) == Outbox(s, c)
      && (forall d :: d != o ==> Outbox(t, d) == Outbox(s, d))
      && t.waiting == s.waiting && t.roomOf == s.roomOf && t.flagged == s.flagged
  {
    match Lookup(s, c)
    case None => s
    case Some(id) =>
      var r := s.rooms[id];
      var p := SlotOf(r, c).(score := score, remaining := remaining);
      var s1 := s.(rooms := s.rooms[id := WithSlot(r, c, p)]);
      Send(s1, OpponentOf(r, c), OpponentUpdate(score, remaining))
  }

  /**
   Completion report from `c`: both players are told the result, `c` as the winner, and the
   room is removed whatever the scores are.
   */
  function GameComplete(s: State, c: ConnId, score: int, time: int): (t: State)
    requires Valid(s)
    ensures Valid(t)
    // No live room (never paired, or the room is already gone): nothing happens.
    ensures Lookup(s, c).None? ==> t == s
    ensures Lookup(s, c).Some? ==>
      var id := Lookup(s, c).value;
      var r := s.rooms[id];
      var o := OpponentOf(r, c);
      var theirs := SlotOf(r, o).score;
      && IsPlayer(r, c) && o != c
      && id !in t.rooms && t.rooms == s.rooms - {id}
      && Outbox(t, c) == Outbox(s, c) + [GameOver(You, score, Some(time), theirs, None)]
      && Outbox(t, o) == Outbox(s, o) + [GameOver(Opponent, theirs, None, score, Some(time))]
      && (forall d :: d != c && d != o ==> Outbox(t, d) == Outbox(s, d))
      && t.waiting == s.waiting && t.roomOf == s.roomOf && t.flagged == s.flagged
  {
    match Lookup(s, c)
    case None => s
    case Some(id) =>
      var r := s.rooms[id];
      var o := OpponentOf(r, c);
      var r' := WithSlot(r, c, SlotOf(r, c).(completed := true, score := score, time := Some(time)));
      var theirs := SlotOf(r', o).score;
      var s1 := s.(rooms := s.rooms[id := r']);
      var s2 := Send(s1, c, GameOver(You, score, Some(time), theirs, None));
      var s3 := Send(s2, o, GameOver(Opponent, theirs, None, score, Some(time)));
      s3.(rooms := s3.rooms - {id})
  }

  /**
   `c` has gone away. A waiting `c` only leaves the slot; otherwise the opponent in `c`'s live
   room, if there is one, is told it won and the room is removed.
   */
  function Disconnect(s: State, c: ConnId): (t: State)
    requires Valid(s)
    ensures Valid(t)
    // Waiting: the slot is emptied; rooms, flags and outboxes stay as they are.
    ensures s.waiting == Some(c) ==>
      t.waiting == None && t.rooms == s.rooms && t.roomOf == s.roomOf
      && t.flagged == s.flagged && t.outbox == s.outbox
    // Neither waiting nor in a live room: nothing happens.
    ensures s.waiting != Some(c) && Lookup(s, c).None? ==> t == s
    ensures s.waiting != Some(c) && Lookup(s, c).Some? ==>
      var id := Lookup(s, c).value;
      var o := OpponentOf(s.rooms[id], c);
      && o != c
      && id !in t.rooms && t.rooms == s.rooms - {id}
      && Outbox(t, o) == Outbox(s, o) + [GameOverByDisconnect(You, DisconnectReason)]
      && Outbox(t, c) == Outbox(s, c)
      && (forall d :: d != o ==> Outbox(t, d) == Outbox(s, d))
      && t.waiting == s.waiting && t.roomOf == s.roomOf && t.flagged == s.flagged
  {
    if s.waiting == Some(c) then s.(waiting := None)
    else
      match Lookup(s, c)
      case None => s
      case Some(id) =>
        var s1 := Send(s, OpponentOf(s.rooms[id], c), GameOverByDisconnect(You, DisconnectReason));
        s1.(rooms := s1.rooms - {id})
  }
}
