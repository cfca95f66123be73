/** Whole sessions through the handlers, from a fresh server, and the events they emit. */
module Scenarios {
  import opened Js
  import opened Constants
  import opened GameLogic
  import opened Validation
  import opened Transport
  import opened Rooms
  import opened Handlers

  const ROOM: RoomId := "ABCD1234"

  /** Room `ROOM` once "A" is player 1 and "B" player 2. */
  function PairedRoom(): RoomData
  {
    RoomData(None, None, 0, 0, Some("A"), Some("B"), Playing)
  }

  /** A fresh server where "A" and "B" are connected and "A" has created
      `ROOM`. */
  method Open() returns (io: Io, rm: RoomManager, loop: EventLoop)
    ensures fresh(io) && fresh(rm) && fresh(loop)
    ensures io.Valid() && rm.Valid() && rm.AllWellFormed()
    ensures io.live == {"A", "B"} && io.groups == map[]
    ensures ROOM in rm.rooms && rm.rooms.Keys == {ROOM} && fresh(rm.rooms[ROOM])
    ensures rm.View() == map[ROOM := NewRoom(Some("A"), Waiting)]
    ensures loop.immediates == []
  {
    io := new Io();
    io.Connect("A");
    io.Connect("B");
    rm := new RoomManager();
    loop := new EventLoop();
    HandleCreateRoom(rm, "A", ROOM);
    NewRoomWellFormed("A");
    assert rm.AllWellFormed();
  }

  /** ... and "B" has joined it; the announcement is still queued. */
  method PairUp() returns (io: Io, rm: RoomManager, loop: EventLoop)
    ensures fresh(io) && fresh(rm) && fresh(loop)
    ensures io.Valid() && rm.Valid() && rm.AllWellFormed()
    ensures io.live == {"A", "B"} && io.groups == map[ROOM := {"A", "B"}]
    ensures ROOM in rm.rooms && rm.rooms.Keys == {ROOM} && fresh(rm.rooms[ROOM])
    ensures rm.View() == map[ROOM := PairedRoom()]
    ensures loop.immediates == [EmitPlayersConnected(ROOM, rm.rooms[ROOM])]
  {
    io, rm, loop := Open();
    assert |{} + {"A", "B"}| == 2;
    assert JoinStepOf(rm.Lookup(ROOM), io.live, io.Members(ROOM), "B") == Paired;
    HandleJoinRoom(io, rm, loop, "B", ROOM);
  }

  /** Socket "A" creates `ROOM` and socket "B" joins it; the queued
      announcement tells each of them its own role. "A" plays rock as
      player 1 and "B" scissors as player 2. The last event of the session
      is the outcome, sent to both: player 1 wins, 1-0. */
  method OneRound() returns (announced: seq<Envelope>, last: Envelope)
    ensures |announced| == 2
    ensures Envelope({"A"}, PlayersConnected(ROOM, 2, true, Some("A"), Some("B"))) in announced
    ensures Envelope({"B"}, PlayersConnected(ROOM, 2, false, Some("A"), Some("B"))) in announced
    ensures last == Envelope({"A", "B"}, Winner(Player1, 1, 0, Rock, Scissors))
  {
    var io, rm, loop := PairUp();
    announced := Announce(io, rm, loop);
    last := PlayRound(io, rm, loop);
  }

  /** The queued "playersConnected" announcement of a paired room. */
  method Announce(io: Io, rm: RoomManager, loop: EventLoop) returns (announced: seq<Envelope>)
    requires io.Valid() && rm.Valid()
    requires io.groups == map[ROOM := {"A", "B"}]
    requires ROOM in rm.rooms && rm.View() == map[ROOM := PairedRoom()]
    requires loop.immediates == [EmitPlayersConnected(ROOM, rm.rooms[ROOM])]
    modifies io, loop
    ensures io.Valid() && io.live == old(io.live) && io.groups == old(io.groups)
    ensures loop.immediates == []
    ensures |announced| == 2
    ensures Envelope({"A"}, PlayersConnected(ROOM, 2, true, Some("A"), Some("B"))) in announced
    ensures Envelope({"B"}, PlayersConnected(ROOM, 2, false, Some("A"), Some("B"))) in announced
  {
    var task := loop.Next();
    var before := |io.outbox|;
    assert io.Members(ROOM) == {"A", "B"};
    assert |io.Members(ROOM)| == 2;
    assert task.value.roomData == rm.rooms[ROOM];
    assert task.value.roomData.Data() == rm.View()[ROOM] == PairedRoom();
    var threw, order := RunEmitPlayersConnected(io, ROOM, task.value.roomData);
    announced := io.outbox[before..];
    AnnouncementsTellRoles(ROOM, 2, PairedRoom(), order);
    assert "A" in order && "B" in order;
    ghost var iA :| 0 <= iA < |order| && order[iA] == "A";
    ghost var iB :| 0 <= iB < |order| && order[iB] == "B";
    assert announced[iA] == Announcement(ROOM, 2, PairedRoom(), "A");
    assert announced[iB] == Announcement(ROOM, 2, PairedRoom(), "B");
  }

  /** Rock against scissors in a paired room, then the queued outcome. */
  method PlayRound(io: Io, rm: RoomManager, loop: EventLoop) returns (last: Envelope)
    requires io.Valid() && rm.Valid()
    requires io.groups == map[ROOM := {"A", "B"}]
    requires ROOM in rm.rooms && rm.View() == map[ROOM := PairedRoom()]
    requires loop.immediates == []
    modifies io, rm.rooms.Values, loop
    ensures last == Envelope({"A", "B"}, Winner(Player1, 1, 0, Rock, Scissors))
  {
    Move(io, rm, loop, "A", "rock", true, PairedRoom());
    Move(io, rm, loop, "B", "scissors", false, PairedRoom().(p1Choice := Some(Rock)));
    var task := loop.Next();
    RunDeclareWinner(io, rm, task.value.roomId);
    last := io.outbox[|io.outbox| - 1];
  }

  /** One accepted move by a player of the paired room. */
  method Move(io: Io, rm: RoomManager, loop: EventLoop, who: ConnId, name: string, isPlayer1: bool, d: RoomData)
    requires io.Valid() && rm.Valid()
    requires io.groups == map[ROOM := {"A", "B"}]
    requires ROOM in rm.rooms && rm.View() == map[ROOM := d]
    requires d.player1Id == Some("A") && d.player2Id == Some("B") && who == (if isPlayer1 then "A" else "B")
    requires ParseChoice(name).Some?
    requires (if isPlayer1 then d.p1Choice else d.p2Choice) == None
    requires loop.immediates == []
    modifies io, rm.rooms.Values, loop
    ensures io.Valid() && rm.Valid() && io.groups == old(io.groups) && rm.rooms == old(rm.rooms)
    ensures rm.View() == map[ROOM := WithChoice(d, isPlayer1, ParseChoice(name).value)]
    ensures loop.immediates == if (if isPlayer1 then d.p2Choice else d.p1Choice).Some? then [DeclareWinner(ROOM)] else []
  {
    assert io.Members(ROOM) == {"A", "B"};
    assert rm.Lookup(ROOM) == Some(d);
    HandlePlayerChoice(io, rm, loop, who, Some(ChoicePayload(ROOM, Str(name))), isPlayer1);
  }

  /** A third socket asking to join the paired room is told it is full
      and is not left in the group; the pair and its room are untouched. */
  method ThirdJoinerRefused() returns (reply: Envelope, members: set<ConnId>)
    ensures reply == Envelope({"C"}, RoomFull)
    ensures members == {"A", "B"}
  {
    var io, rm, loop := PairUp();
    io.Connect("C");
    assert io.Members(ROOM) == {"A", "B"};
    assert {"A", "B"} + {"A", "C"} == {"A", "B", "C"};
    assert |{"A", "B", "C"}| == 3;
    assert JoinStepOf(rm.Lookup(ROOM), io.live, io.Members(ROOM), "C") == RoomIsFull;
    HandleJoinRoom(io, rm, loop, "C", ROOM);
    reply := io.outbox[|io.outbox| - 1];
    members := io.Members(ROOM);
    assert ({"A", "B"} + {"A"}) - {"C"} == {"A", "B"};
  }

  /** Joining a room nobody created is answered "notValidToken". */
  method UnknownRoomRefused() returns (reply: Envelope)
    ensures reply == Envelope({"B"}, NotValidToken)
  {
    var io, rm, loop := Open();
    assert rm.Lookup("nope") == None;
    HandleJoinRoom(io, rm, loop, "B", "nope");
    reply := io.outbox[|io.outbox| - 1];
  }
}
