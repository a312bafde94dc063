/**
 Sequences of requests. A run applies the handlers of module Matchmaking one after another,
 as the event loop does; the lemmas here state what holds of every run and of the rooms a
 completion or a disconnect closes.
 */
module Runs {
  import opened Matchmaking

  /** One client request, with the room id and seed a start request would be given. */
  datatype Event =
    | Start(c: ConnId, id: RoomId, seed: int)
    | Cancel(c: ConnId)
    | Update(c: ConnId, score: int, remaining: int)
    | Complete(c: ConnId, score: int, time: int)
    | Leave(c: ConnId)

  /** A start request that pairs must come with a fresh room id. */
  predicate Allowed(s: State, e: Event) {
    e.Start? ==> (Pairs(s, e.c) ==> FreshRoom(s, e.id))
  }

  /** The one room a request can add, change or remove; none for a request that leaves the store alone. */
  function Touched(s: State, e: Event): Option<RoomId> {
    match e
    case Start(c, id, _) => if Pairs(s, c) then Some(id) else None
    case Cancel(_) => None
    case Update(c, _, _) => Lookup(s, c)
    case Complete(c, _, _) => Lookup(s, c)
    case Leave(c) => if s.waiting == Some(c) then None else Lookup(s, c)
  }

  /**
   One request. Every request keeps the invariant, only appends to outboxes, and leaves every
   room but the one it touches as it was.
   */
  function Step(s: State, e: Event): (t: State)
    requires Valid(s) && Allowed(s, e)
    ensures Valid(t)
    ensures forall d :: Outbox(s, d) <= Outbox(t, d)
    ensures Touched(s, e).None? ==> t.rooms == s.rooms
    ensures Touched(s, e).Some? ==> OtherRoomsUnchanged(s, t, Touched(s, e).value)
  {
    match e
    case Start(c, id, seed) => StartMatch(s, c, id, seed)
    case Cancel(c) => CancelMatch(s, c)
    case Update(c, score, remaining) => GameUpdate(s, c, score, remaining)
    case Complete(c, score, time) => GameComplete(s, c, score, time)
    case Leave(c) => Disconnect(s, c)
  }

  /** Every start request in `evs` that pairs gets a fresh room id at the point it is handled. */
  ghost predicate Admissible(s: State, evs: seq<Event>)
    requires Valid(s)
    decreases |evs|
  {
    evs == [] || (Allowed(s, evs[0]) && Admissible(Step(s, evs[0]), evs[1..]))
  }

  function Run(s: State, evs: seq<Event>): (t: State)
    requires Valid(s) && Admissible(s, evs)
    ensures Valid(t)
    decreases |evs|
  {
    if evs == [] then s else Run(Step(s, evs[0]), evs[1..])
  }

  /** A run never reorders or withdraws a message: each outbox only grows at its end. */
  lemma {:induction false} OutboxesOnlyGrow(s: State, evs: seq<Event>)
    requires Valid(s) && Admissible(s, evs)
    ensures forall d :: Outbox(s, d) <= Outbox(Run(s, evs), d)
    decreases |evs|
  {
    if evs != [] {
      var s' := Step(s, evs[0]);
      OutboxesOnlyGrow(s', evs[1..]);
      forall d ensures Outbox(s, d) <= Outbox(Run(s, evs), d) {
        PrefixTransitive(Outbox(s, d), Outbox(s', d), Outbox(Run(s', evs[1..]), d));
      }
    }
  }

  lemma PrefixTransitive(a: seq<Msg>, b: seq<Msg>, c: seq<Msg>)
    requires a <= b && b <= c
    ensures a <= c
  {
  }

  // ---------------------------------------------------------------------------
  // No connection is told a game is over more often than it was told it had been matched.

  function Matches(ms: seq<Msg>): nat
    decreases |ms|
  {
    if ms == [] then 0 else Matches(ms[..|ms| - 1]) + (if ms[|ms| - 1].Matched? then 1 else 0)
  }

  function Endings(ms: seq<Msg>): nat
    decreases |ms|
  {
    if ms == [] then 0
    else Endings(ms[..|ms| - 1]) + (if ms[|ms| - 1].GameOver? || ms[|ms| - 1].GameOverByDisconnect? then 1 else 0)
  }

  lemma CountAppend(ms: seq<Msg>, m: Msg)
    ensures Matches(ms + [m]) == Matches(ms) + (if m.Matched? then 1 else 0)
    ensures Endings(ms + [m]) == Endings(ms) + (if m.GameOver? || m.GameOverByDisconnect? then 1 else 0)
  {
    assert (ms + [m])[..|ms|] == ms;
  }

  /** The live rooms `c` plays in. */
  ghost function LiveRooms(s: State, c: ConnId): set<RoomId> {
    set id | id in s.rooms && IsPlayer(s.rooms[id], c)
  }

  /**
   For every connection, the game-over messages it has received plus the live rooms it still
   plays in never outnumber the matched messages it has received.
   */
  ghost predicate Balanced(s: State) {
    forall d :: Endings(Outbox(s, d)) + |LiveRooms(s, d)| <= Matches(Outbox(s, d))
  }

  lemma InitialBalanced()
    ensures Balanced(Initial)
  {
    forall d ensures Endings(Outbox(Initial, d)) + |LiveRooms(Initial, d)| <= Matches(Outbox(Initial, d)) {
      assert LiveRooms(Initial, d) == {};
    }
  }

  /** Removing room `id` from the store takes `id` out of each connection's live rooms. */
  lemma LiveRoomsAfterRemove(s: State, t: State, id: RoomId, d: ConnId)
    requires t.rooms == s.rooms - {id}
    ensures LiveRooms(t, d) == LiveRooms(s, d) - {id}
    ensures |LiveRooms(t, d)| <= |LiveRooms(s, d)|
    ensures id in LiveRooms(s, d) ==> |LiveRooms(t, d)| == |LiveRooms(s, d)| - 1
  {
    assert LiveRooms(t, d) == LiveRooms(s, d) - {id};
  }

  /** Outboxes and room memberships that are unchanged keep the balance. */
  lemma BalancedFrame(s: State, t: State)
    requires Balanced(s)
    requires t.outbox == s.outbox && t.rooms.Keys == s.rooms.Keys
    requires forall id :: id in s.rooms ==> t.rooms[id].player1 == s.rooms[id].player1 && t.rooms[id].player2 == s.rooms[id].player2
    ensures Balanced(t)
  {
    forall d ensures Endings(Outbox(t, d)) + |LiveRooms(t, d)| <= Matches(Outbox(t, d)) {
      assert LiveRooms(t, d) == LiveRooms(s, d);
      assert Outbox(t, d) == Outbox(s, d);
    }
  }

  /** Adding room `id` to the store adds it to the live rooms of its two players only. */
  lemma LiveRoomsAfterAdd(s: State, t: State, id: RoomId, d: ConnId)
    requires id !in s.rooms && id in t.rooms && OtherRoomsUnchanged(s, t, id)
    ensures IsPlayer(t.rooms[id], d) ==> LiveRooms(t, d) == LiveRooms(s, d) + {id}
    ensures IsPlayer(t.rooms[id], d) ==> |LiveRooms(t, d)| == |LiveRooms(s, d)| + 1
    ensures !IsPlayer(t.rooms[id], d) ==> LiveRooms(t, d) == LiveRooms(s, d)
  {
    var extra := if IsPlayer(t.rooms[id], d) then {id} else {};
    forall x ensures x in LiveRooms(t, d) <==> x in LiveRooms(s, d) + extra {
      if x != id {
        assert x in t.rooms <==> x in s.rooms;
      }
    }
    assert LiveRooms(t, d) == LiveRooms(s, d) + extra;
    assert id !in LiveRooms(s, d);
  }

  /** A new room whose two players are each sent one matched message keeps the balance. */
  lemma AddRoomKeepsBalance(s: State, t: State, id: RoomId, mine: Msg, theirs: Msg)
    requires Balanced(s)
    requires id !in s.rooms && id in t.rooms && OtherRoomsUnchanged(s, t, id)
    requires mine.Matched? && theirs.Matched?
    requires Outbox(t, t.rooms[id].player1) == Outbox(s, t.rooms[id].player1) + [mine]
    requires Outbox(t, t.rooms[id].player2) == Outbox(s, t.rooms[id].player2) + [theirs]
    requires forall d :: !IsPlayer(t.rooms[id], d) ==> Outbox(t, d) == Outbox(s, d)
    ensures Balanced(t)
  {
    var r := t.rooms[id];
    forall d ensures Endings(Outbox(t, d)) + |LiveRooms(t, d)| <= Matches(Outbox(t, d)) {
      LiveRoomsAfterAdd(s, t, id, d);
      if IsPlayer(r, d) {
        CountAppend(Outbox(s, d), if d == r.player1 then mine else theirs);
      }
    }
  }

  /** Sending one message that is neither matched nor game-over keeps the balance. */
  lemma RelayKeepsBalance(s: State, t: State, o: ConnId, m: Msg)
    requires Balanced(s)
    requires t.rooms.Keys == s.rooms.Keys
    requires forall id :: id in s.rooms ==> t.rooms[id].player1 == s.rooms[id].player1 && t.rooms[id].player2 == s.rooms[id].player2
    requires !m.Matched? && !m.GameOver? && !m.GameOverByDisconnect?
    requires Outbox(t, o) == Outbox(s, o) + [m]
    requires forall d :: d != o ==> Outbox(t, d) == Outbox(s, d)
    ensures Balanced(t)
  {
    forall d ensures Endings(Outbox(t, d)) + |LiveRooms(t, d)| <= Matches(Outbox(t, d)) {
      assert LiveRooms(t, d) == LiveRooms(s, d);
      if d == o {
        CountAppend(Outbox(s, d), m);
      }
    }
  }

  /**
   Removing a room and sending each of its players at most one message, a game-over one,
   keeps the balance.
   */
  lemma RemoveRoomKeepsBalance(s: State, t: State, id: RoomId, notified: set<ConnId>, m: ConnId -> Msg)
    requires Balanced(s)
    requires id in s.rooms && t.rooms == s.rooms - {id}
    requires forall d :: d in notified ==> IsPlayer(s.rooms[id], d)
    requires forall d :: d in notified ==> (m(d).GameOver? || m(d).GameOverByDisconnect?)
    requires forall d :: d in notified ==> Outbox(t, d) == Outbox(s, d) + [m(d)]
    requires forall d :: d !in notified ==> Outbox(t, d) == Outbox(s, d)
    ensures Balanced(t)
  {
    forall d ensures Endings(Outbox(t, d)) + |LiveRooms(t, d)| <= Matches(Outbox(t, d)) {
      LiveRoomsAfterRemove(s, t, id, d);
      if d in notified {
        assert id in LiveRooms(s, d);
        CountAppend(Outbox(s, d), m(d));
      }
    }
  }

  lemma StartKeepsBalance(s: State, c: ConnId, id: RoomId, seed: int)
    requires Valid(s) && Balanced(s)
    requires Pairs(s, c) ==> FreshRoom(s, id)
    ensures Balanced(StartMatch(s, c, id, seed))
  {
    var t := StartMatch(s, c, id, seed);
    if Pairs(s, c) {
      var w := s.waiting.value;
      AddRoomKeepsBalance(s, t, id, Matched(PlayerName(c), seed, true), Matched(PlayerName(w), seed, false));
    } else {
      BalancedFrame(s, t);
    }
  }

  lemma UpdateKeepsBalance(s: State, c: ConnId, score: int, remaining: int)
    requires Valid(s) && Balanced(s)
    ensures Balanced(GameUpdate(s, c, score, remaining))
  {
    var t := GameUpdate(s, c, score, remaining);
    if Lookup(s, c).Some? {
      var id := Lookup(s, c).value;
      RelayKeepsBalance(s, t, OpponentOf(s.rooms[id], c), OpponentUpdate(score, remaining));
    }
  }

  lemma CompleteKeepsBalance(s: State, c: ConnId, score: int, time: int)
    requires Valid(s) && Balanced(s)
    ensures Balanced(GameComplete(s, c, score, time))
  {
    var t := GameComplete(s, c, score, time);
    if Lookup(s, c).Some? {
      var id := Lookup(s, c).value;
      var r := s.rooms[id];
      var o := OpponentOf(r, c);
      var theirs := SlotOf(r, o).score;
      var m := (d: ConnId) => if d == c then GameOver(You, score, Some(time), theirs, None)
                              else GameOver(Opponent, theirs, None, score, Some(time));
      RemoveRoomKeepsBalance(s, t, id, {c, o}, m);
    }
  }

  lemma LeaveKeepsBalance(s: State, c: ConnId)
    requires Valid(s) && Balanced(s)
    ensures Balanced(Disconnect(s, c))
  {
    var t := Disconnect(s, c);
    if s.waiting != Some(c) && Lookup(s, c).Some? {
      var id := Lookup(s, c).value;
      var o := OpponentOf(s.rooms[id], c);
      RemoveRoomKeepsBalance(s, t, id, {o}, (d: ConnId) => GameOverByDisconnect(You, DisconnectReason));
    } else {
      BalancedFrame(s, t);
    }
  }

  lemma StepKeepsBalance(s: State, e: Event)
    requires Valid(s) && Allowed(s, e) && Balanced(s)
    ensures Balanced(Step(s, e))
  {
    match e
    case Start(c, id, seed) => StartKeepsBalance(s, c, id, seed);
    case Cancel(c) =>
    case Update(c, score, remaining) => UpdateKeepsBalance(s, c, score, remaining);
    case Complete(c, score, time) => CompleteKeepsBalance(s, c, score, time);
    case Leave(c) => LeaveKeepsBalance(s, c);
  }

  lemma {:induction false} RunKeepsBalance(s: State, evs: seq<Event>)
    requires Valid(s) && Admissible(s, evs) && Balanced(s)
    ensures Balanced(Run(s, evs))
    decreases |evs|
  {
    if evs != [] {
      StepKeepsBalance(s, evs[0]);
      RunKeepsBalance(Step(s, evs[0]), evs[1..]);
    }
  }

  /**
   From a fresh server, every connection has received at most as many game-over messages as
   matched messages, across any run.
   */
  lemma EndingsNeverExceedMatches(evs: seq<Event>, d: ConnId)
    requires Admissible(Initial, evs)
    ensures Endings(Outbox(Run(Initial, evs), d)) <= Matches(Outbox(Run(Initial, evs), d))
  {
    InitialBalanced();
    RunKeepsBalance(Initial, evs);
  }

  // ---------------------------------------------------------------------------
  // Closed rooms

  /**
   After `c` completes, every connection whose stored room id names the closed room (`c` and,
   unless it has been paired again since, its opponent) has no live room: its later updates
   and completions are ignored, and its disconnect sends nothing and removes no room.
   */
  lemma CompletedRoomIsClosed(s: State, c: ConnId, score: int, time: int, d: ConnId, score': int, x: int)
    requires Valid(s) && Lookup(s, c).Some?
    requires d in s.roomOf && s.roomOf[d] == Lookup(s, c).value
    ensures var t := GameComplete(s, c, score, time);
      && Lookup(t, d) == None
      && GameUpdate(t, d, score', x) == t
      && GameComplete(t, d, score', x) == t
      && Disconnect(t, d).rooms == t.rooms && Disconnect(t, d).outbox == t.outbox
  {
  }

  /** The same after `c` disconnects from its room. */
  lemma AbandonedRoomIsClosed(s: State, c: ConnId, d: ConnId, score': int, x: int)
    requires Valid(s) && s.waiting != Some(c) && Lookup(s, c).Some?
    requires d in s.roomOf && s.roomOf[d] == Lookup(s, c).value
    ensures var t := Disconnect(s, c);
      && Lookup(t, d) == None
      && GameUpdate(t, d, score', x) == t
      && GameComplete(t, d, score', x) == t
      && Disconnect(t, d).rooms == t.rooms && Disconnect(t, d).outbox == t.outbox
  {
  }

  /** `d` keeps stored room id `id` in every state of the run, the first included. */
  ghost predicate KeepsStoredId(s: State, evs: seq<Event>, d: ConnId, id: RoomId)
    requires Valid(s) && Admissible(s, evs)
    decreases |evs|
  {
    && d in s.roomOf && s.roomOf[d] == id
    && (evs == [] || KeepsStoredId(Step(s, evs[0]), evs[1..], d, id))
  }

  /**
   One request never brings back a removed room that some connection still names: a pairing
   needs a room id that no connection has stored.
   */
  lemma StaleIdStaysStale(s: State, e: Event, d: ConnId)
    requires Valid(s) && Allowed(s, e)
    requires d in s.roomOf && s.roomOf[d] !in s.rooms
    ensures var t := Step(s, e);
      d in t.roomOf && (t.roomOf[d] == s.roomOf[d] ==> t.roomOf[d] !in t.rooms)
  {
  }

  /**
   Once the room a connection names is gone, it stays gone for as long as the connection keeps
   naming it: through any run, that connection's updates and completions are ignored and its
   disconnect sends nothing and removes no room.
   */
  lemma {:induction false} StaleIdStaysClosed(s: State, evs: seq<Event>, d: ConnId, score: int, x: int)
    requires Valid(s) && Admissible(s, evs)
    requires d in s.roomOf && s.roomOf[d] !in s.rooms
    requires KeepsStoredId(s, evs, d, s.roomOf[d])
    ensures var t := Run(s, evs);
      && s.roomOf[d] !in t.rooms && Lookup(t, d) == None
      && GameUpdate(t, d, score, x) == t
      && GameComplete(t, d, score, x) == t
      && Disconnect(t, d).rooms == t.rooms && Disconnect(t, d).outbox == t.outbox
    decreases |evs|
  {
    if evs != [] {
      StaleIdStaysStale(s, evs[0], d);
      StaleIdStaysClosed(Step(s, evs[0]), evs[1..], d, score, x);
    }
  }
}
