/**
 Short request sequences with their expected outcomes, stated over the handler functions of
 module Matchmaking.
 */
module Scenarios {
  import opened Matchmaking

  /** Two distinct connections asking in turn, from an empty slot, share one new room. */
  lemma TwoStartsPair(s: State, a: ConnId, b: ConnId, id: RoomId, id': RoomId, seed': int, seed: int)
    requires Valid(s) && s.waiting == None && a != b && FreshRoom(s, id)
    ensures var t := StartMatch(StartMatch(s, a, id', seed'), b, id, seed);
      && t.waiting == None
      && t.rooms == s.rooms[id := Room(a, b, seed, NewPlayer, NewPlayer)]
      && Outbox(t, a) == Outbox(s, a) + [Matched(PlayerName(b), seed, true)]
      && Outbox(t, b) == Outbox(s, b) + [Matched(PlayerName(a), seed, false)]
  {
    var s1 := StartMatch(s, a, id', seed');
    assert FreshRoom(s1, id);
    var t := StartMatch(s1, b, id, seed);
    assert t.rooms == s.rooms[id := Room(a, b, seed, NewPlayer, NewPlayer)];
  }

  /** Asking twice with nobody else around leaves the one connection queued and no new room. */
  lemma StartTwiceQueuesOnce(s: State, a: ConnId, id: RoomId, id': RoomId, seed: int, seed': int)
    requires Valid(s) && s.waiting == None
    ensures var t := StartMatch(StartMatch(s, a, id, seed), a, id', seed');
      t.waiting == Some(a) && t.rooms == s.rooms && t.outbox == s.outbox
  {
  }

  /** A queued connection that disconnects frees the slot for the next one, which waits alone. */
  lemma DisconnectFreesSlot(s: State, a: ConnId, b: ConnId, id: RoomId, id': RoomId, seed: int, seed': int)
    requires Valid(s) && s.waiting == None
    ensures var t := StartMatch(Disconnect(StartMatch(s, a, id, seed), a), b, id', seed');
      t.waiting == Some(b) && t.rooms == s.rooms && t.outbox == s.outbox
  {
  }

  /**
   The sequence: conn1 asks, conn2 asks (room "R", seed `seed`), conn1 reports 10 points with
   50 tiles left, conn2 completes with 64 points at time 120.
   */
  lemma ReportedMatch(seed: int)
    ensures
      var s1 := StartMatch(Initial, "conn1", "R", seed);
      var s2 := StartMatch(s1, "conn2", "R", seed);
      var s3 := GameUpdate(s2, "conn1", 10, 50);
      var s4 := GameComplete(s3, "conn2", 64, 120);
      && Outbox(s2, "conn1") == [Matched("Player conn2", seed, true)]
      && Outbox(s2, "conn2") == [Matched("Player conn1", seed, false)]
      && Outbox(s3, "conn2") == [Matched("Player conn1", seed, false), OpponentUpdate(10, 50)]
      && Outbox(s3, "conn1") == Outbox(s2, "conn1")
      && Outbox(s4, "conn2") == Outbox(s3, "conn2") + [GameOver(You, 64, Some(120), 10, None)]
      && Outbox(s4, "conn1") == Outbox(s3, "conn1") + [GameOver(Opponent, 10, None, 64, Some(120))]
      && "R" !in s4.rooms
  {
    InitialValid();
    var s1 := StartMatch(Initial, "conn1", "R", seed);
    assert s1.waiting == Some("conn1");
    var s2 := StartMatch(s1, "conn2", "R", seed);
    assert "conn1" != "conn2";
    assert s2.rooms["R"] == Room("conn1", "conn2", seed, NewPlayer, NewPlayer);
    assert Lookup(s2, "conn1") == Some("R");
    var s3 := GameUpdate(s2, "conn1", 10, 50);
    assert s3.rooms["R"].state1.score == 10;
    assert Lookup(s3, "conn2") == Some("R");
    assert PlayerName("conn2") == "Player conn2";
    assert PlayerName("conn1") == "Player conn1";
  }

  /**
   A connection already playing can ask again and be paired a second time: it is then a
   player of two live rooms at once, and a report from the first room's opponent still
   reaches it.
   */
  lemma ConnectionInTwoRooms()
    ensures
      var s1 := StartMatch(Initial, "a", "r1", 1);
      var s2 := StartMatch(s1, "b", "r1", 1);
      var s3 := StartMatch(s2, "a", "r2", 2);
      var s4 := StartMatch(s3, "c", "r2", 2);
      && "r1" in s4.rooms && "r2" in s4.rooms
      && IsPlayer(s4.rooms["r1"], "a") && IsPlayer(s4.rooms["r2"], "a")
      && Outbox(GameUpdate(s4, "b", 5, 60), "a") == Outbox(s4, "a") + [OpponentUpdate(5, 60)]
  {
    InitialValid();
    var s1 := StartMatch(Initial, "a", "r1", 1);
    var s2 := StartMatch(s1, "b", "r1", 1);
    assert "a" != "b" && "a" != "c" && "r1" != "r2";
    assert s2.waiting == None && "r1" in s2.rooms;
    var s3 := StartMatch(s2, "a", "r2", 2);
    assert s3.waiting == Some("a");
    assert s3.roomOf.Values == {"r1"};
    var s4 := StartMatch(s3, "c", "r2", 2);
    assert s4.rooms["r1"] == s2.rooms["r1"];
    assert Lookup(s4, "b") == Some("r1");
  }
}
