/** The room registry of server/socket/roomManager.js. Each room is an
    object whose fields are updated in place; the registry maps room ids to
    those objects. `RoomData` is the value of one room at one moment, and the
    functions on it below specify what each registry operation does. */
module Rooms {
  import opened Js
  import opened Constants
  import opened Transport

  /** The fields of a room record. */
  datatype RoomData = RoomData(
    p1Choice: Option<Choice>,
    p2Choice: Option<Choice>,
    p1Score: nat,
    p2Score: nat,
    player1Id: Option<ConnId>,
    player2Id: Option<ConnId>,
    status: RoomStatus)

  /** The record a newly stored room starts with: no moves, 0-0, at most
      a first player. */
  function NewRoom(player1Id: Option<ConnId>, status: RoomStatus): RoomData
  {
    RoomData(None, None, 0, 0, player1Id, None, status)
  }

  /** The stale-room test of `joinRoom`: one member in the group while a
      role slot is empty. */
  predicate IsStale(d: RoomData, currentRoomSize: nat)
  {
    currentRoomSize == 1 && (d.player1Id.None? || d.player2Id.None?)
  }

  /** `joinRoom` on a room that exists: reset it if stale, give the joiner
      the first empty slot (player 1 before player 2), and clear both moves
      once the group has two or more members. */
  function AssignRole(d: RoomData, playerId: ConnId, currentRoomSize: nat): RoomData
  {
    Filled(if IsStale(d, currentRoomSize) then NewRoom(None, Waiting) else d, playerId, currentRoomSize)
  }

  /** The in-place part of `joinRoom` (lines 82-95): first empty slot, then
      the round restart. */
  function Filled(d: RoomData, playerId: ConnId, currentRoomSize: nat): RoomData
  {
    var filled :=
      if d.player1Id.None? then d.(player1Id := Some(playerId), status := Playing)
      else if d.player2Id.None? then d.(player2Id := Some(playerId), status := Playing)
      else d;
    if currentRoomSize >= 2 then filled.(p1Choice := None, p2Choice := None) else filled
  }

  /** What `joinRoom` promises about roles, scores and moves: a stale room
      starts over with the joiner as player 1; otherwise a filled slot is
      never overwritten, the joiner takes player 1 if free and else player 2
      if free, the scores are kept, and with both slots filled the roles and
      status stay as they were. A group of two or more starts a fresh round;
      a smaller one keeps the moves. */
  lemma AssignRoleSlots(d: RoomData, playerId: ConnId, currentRoomSize: nat)
    ensures var r := AssignRole(d, playerId, currentRoomSize);
      && (IsStale(d, currentRoomSize) ==> r == NewRoom(Some(playerId), Playing))
      && (!IsStale(d, currentRoomSize) ==>
            && (d.player1Id.Some? ==> r.player1Id == d.player1Id)
            && (d.player2Id.Some? ==> r.player2Id == d.player2Id)
            && (d.player1Id.None? ==> r.player1Id == Some(playerId) && r.status == Playing)
            && (d.player1Id.Some? && d.player2Id.None? ==> r.player2Id == Some(playerId) && r.status == Playing)
            && (d.player1Id.Some? && d.player2Id.Some? ==> r.status == d.status)
            && r.p1Score == d.p1Score && r.p2Score == d.p2Score)
      && (currentRoomSize >= 2 ==> r.p1Choice == None && r.p2Choice == None)
      && (currentRoomSize < 2 && !IsStale(d, currentRoomSize) ==>
            r.p1Choice == d.p1Choice && r.p2Choice == d.p2Choice)
  {
  }

  /** `resetRoomOnPlayerLeave` on a room that exists. */
  function Vacate(d: RoomData, isPlayer1: bool): RoomData
  {
    RoomData(None, None, 0, 0,
             if isPlayer1 then None else d.player1Id,
             if isPlayer1 then d.player2Id else None,
             Waiting)
  }

  /** `setChoice` on a room that exists. */
  function WithChoice(d: RoomData, isPlayer1: bool, choice: Choice): RoomData
  {
    if isPlayer1 then d.(p1Choice := Some(choice)) else d.(p2Choice := Some(choice))
  }

  /** `resetChoices` on a room that exists. */
  function WithoutChoices(d: RoomData): RoomData
  {
    d.(p1Choice := None, p2Choice := None)
  }

  /** `updateScore` on a room that exists. */
  function Scored(d: RoomData, winner: WinnerType): RoomData
  {
    match winner
    case Player1 => d.(p1Score := d.p1Score + 1)
    case Player2 => d.(p2Score := d.p2Score + 1)
    case Draw => d
  }

  /** A score update adds exactly one point to the winner and nothing to
      anybody on a draw; it touches no other field. */
  lemma ScoresOnlyGrow(d: RoomData, winner: WinnerType)
    ensures Scored(d, winner).p1Score == d.p1Score + (if winner == Player1 then 1 else 0)
    ensures Scored(d, winner).p2Score == d.p2Score + (if winner == Player2 then 1 else 0)
    ensures Scored(d, winner).(p1Score := d.p1Score, p2Score := d.p2Score) == d
  {
  }

  /** The invariant the session handlers keep for every stored room:
      the two roles are held by different sockets, moves exist only while
      both roles are held, and the status is "playing" exactly when both
      roles are held. */
  ghost predicate WellFormed(d: RoomData)
  {
    && (d.player1Id.Some? && d.player2Id.Some? ==> d.player1Id != d.player2Id)
    && (d.p1Choice.Some? || d.p2Choice.Some? ==> d.player1Id.Some? && d.player2Id.Some?)
    && (d.status == Playing <==> d.player1Id.Some? && d.player2Id.Some?)
  }

  /** A room created by `createRoom` satisfies the invariant. */
  lemma NewRoomWellFormed(p: ConnId)
    ensures WellFormed(NewRoom(Some(p), Waiting))
  {
  }

  /** A join that reaches `joinRoom` from the join handler (the creator is
      still the first player, the joiner is someone else, and the group has
      at least two members) keeps the invariant. */
  lemma AssignRoleWellFormed(d: RoomData, playerId: ConnId, currentRoomSize: nat)
    requires WellFormed(d)
    requires d.player1Id.Some? && d.player1Id != Some(playerId)
    requires currentRoomSize >= 2
    ensures WellFormed(AssignRole(d, playerId, currentRoomSize))
  {
  }

  /** Vacating a role always leaves a well-formed room, whichever role the
      caller names, as long as the roles were distinct before. */
  lemma VacateWellFormed(d: RoomData, isPlayer1: bool)
    requires d.player1Id.Some? && d.player2Id.Some? ==> d.player1Id != d.player2Id
    ensures WellFormed(Vacate(d, isPlayer1))
  {
  }

  /** Whether `conn` holds either role of the room. */
  predicate HoldsRole(d: RoomData, conn: ConnId)
  {
    d.player1Id == Some(conn) || d.player2Id == Some(conn)
  }

  /** Vacating the role a leaver holds frees the leaver entirely: in a
      well-formed room the leaver holds no role afterwards, the other
      player keeps theirs, and the room waits for a new opponent with the
      round and the scores reset. */
  lemma VacateForgetsLeaver(d: RoomData, conn: ConnId)
    requires WellFormed(d) && HoldsRole(d, conn)
    ensures var r := Vacate(d, d.player1Id == Some(conn));
      && !HoldsRole(r, conn)
      && (d.player1Id == Some(conn) ==> r.player2Id == d.player2Id && r.player1Id.None?)
      && (d.player2Id == Some(conn) ==> r.player1Id == d.player1Id && r.player2Id.None?)
      && r.status == Waiting && r.p1Score == 0 && r.p2Score == 0
      && r.p1Choice.None? && r.p2Choice.None?
  {
  }

  /** Recording a move while both roles are held keeps the invariant, and
      so do clearing the moves and scoring. */
  lemma RoundStepsWellFormed(d: RoomData, isPlayer1: bool, choice: Choice, winner: WinnerType)
    requires WellFormed(d)
    ensures d.player1Id.Some? && d.player2Id.Some? ==> WellFormed(WithChoice(d, isPlayer1, choice))
    ensures WellFormed(WithoutChoices(d))
    ensures WellFormed(Scored(d, winner))
  {
  }

  /** Every room of a registry value is well formed. */
  ghost predicate AllWellFormedIn(view: map<RoomId, RoomData>)
  {
    forall id :: id in view ==> WellFormed(view[id])
  }

  /** Storing a well-formed room, or deleting one, keeps every room of a
      registry value well formed. */
  lemma AllWellFormedKept(view: map<RoomId, RoomData>, roomId: RoomId, d: RoomData)
    requires AllWellFormedIn(view)
    ensures WellFormed(d) ==> AllWellFormedIn(view[roomId := d])
    ensures AllWellFormedIn(view - {roomId})
  {
  }

  /** One room: its fields are updated in place by the registry, and a
      handler that holds the object sees those updates. */
  class Room {
    var p1Choice: Option<Choice>
    var p2Choice: Option<Choice>
    var p1Score: nat
    var p2Score: nat
    var player1Id: Option<ConnId>
    var player2Id: Option<ConnId>
    var status: RoomStatus

    function Data(): RoomData
      reads this
    {
      RoomData(p1Choice, p2Choice, p1Score, p2Score, player1Id, player2Id, status)
    }

    /** The object literal of `createRoom` and `joinRoom`. */
    constructor (player1Id: Option<ConnId>, status: RoomStatus)
      ensures Data() == NewRoom(player1Id, status)
    {
      p1Choice, p2Choice := None, None;
      p1Score, p2Score := 0, 0;
      this.player1Id, player2Id := player1Id, None;
      this.status := status;
    }
  }

  /** `RoomManager`: the dictionary `this.rooms` from room id to room. */
  class RoomManager {
    var rooms: map<RoomId, Room>

    /** Every id has its own room object. */
    ghost predicate Valid()
      reads this
    {
      forall a, b :: a in rooms && b in rooms && a != b ==> rooms[a] != rooms[b]
    }

    /** The current value of every stored room. */
    ghost function View(): map<RoomId, RoomData>
      reads this, rooms.Values
    {
      map id | id in rooms :: rooms[id].Data()
    }

    /** The current value of the room under `roomId`, or null. */
    ghost function Lookup(roomId: RoomId): (r: Option<RoomData>)
      reads this, rooms.Values
      ensures r.Some? <==> roomId in View()
      ensures r.Some? ==> r.value == View()[roomId]
    {
      if roomId in rooms then Some(rooms[roomId].Data()) else None
    }

    /** Every stored room satisfies `WellFormed`. */
    ghost predicate AllWellFormed()
      reads this, rooms.Values
    {
      AllWellFormedIn(View())
    }

    /** The room object stored under `roomId`, if any. */
    ghost function At(roomId: RoomId): set<Room>
      reads this
    {
      if roomId in rooms then {rooms[roomId]} else {}
    }

    constructor ()
      ensures Valid() && rooms == map[]
    {
      rooms := map[];
    }

    /** `createRoom`: store a fresh waiting room with the creator as player
        1, replacing any room stored under the same id. */
    method CreateRoom(roomId: RoomId, playerId: ConnId) returns (room: Room)
      requires Valid()
      modifies this
      ensures Valid() && fresh(room)
      ensures rooms == old(rooms)[roomId := room]
      ensures View() == old(View())[roomId := NewRoom(Some(playerId), Waiting)]
    {
      room := new Room(Some(playerId), Waiting);
      Store(roomId, room);
    }

    /** `this.rooms[roomID] = room` for a room object not stored yet. */
    method Store(roomId: RoomId, room: Room)
      requires Valid() && room !in rooms.Values
      modifies this
      ensures Valid()
      ensures rooms == old(rooms)[roomId := room]
      ensures View() == old(View())[roomId := room.Data()]
    {
      rooms := rooms[roomId := room];
    }

    /** `getRoom`: the stored room, or null. */
    function GetRoom(roomId: RoomId): (r: Option<Room>)
      reads this
      ensures r.Some? <==> roomId in rooms
      ensures r.Some? ==> r.value == rooms[roomId]
    {
      if roomId in rooms then Some(rooms[roomId]) else None
    }

    /** `roomExists`: agrees with `getRoom`. */
    function RoomExists(roomId: RoomId): (b: bool)
      reads this
      ensures b <==> GetRoom(roomId).Some?
    {
      roomId in rooms
    }

    /** `getAllRooms`: the dictionary itself. */
    function GetAllRooms(): (all: map<RoomId, Room>)
      reads this
      ensures forall id :: id in all <==> RoomExists(id)
      ensures forall id :: id in all ==> GetRoom(id) == Some(all[id])
    {
      rooms
    }

    /** `joinRoom`: on an absent id, store a new "playing" room with the
        joiner as player 1; otherwise update the stored room as
        `AssignRole` says, replacing the object when the room was stale. */
    method JoinRoom(roomId: RoomId, playerId: ConnId, currentRoomSize: nat) returns (room: Room)
      requires Valid()
      modifies this, At(roomId)
      ensures Valid()
      ensures rooms == old(rooms)[roomId := room]
      ensures View() == old(View())[roomId :=
        if roomId in old(rooms) then AssignRole(old(View())[roomId], playerId, currentRoomSize)
        else NewRoom(Some(playerId), Playing)]
      ensures if roomId in old(rooms) && !IsStale(old(View())[roomId], currentRoomSize)
              then room == old(rooms)[roomId] else fresh(room)
    {
      if roomId !in rooms {
        room := new Room(Some(playerId), Playing);
        Store(roomId, room);
      } else {
        ghost var d := old(View())[roomId];
        ghost var start := if IsStale(d, currentRoomSize) then NewRoom(None, Waiting) else d;
        if currentRoomSize == 1 && (rooms[roomId].player1Id.None? || rooms[roomId].player2Id.None?) {
          var reset := new Room(None, Waiting);
          Store(roomId, reset);
        }
        assert View() == old(View())[roomId := start];
        room := AssignSlot(roomId, playerId, currentRoomSize);
        assert AssignRole(d, playerId, currentRoomSize) == Filled(start, playerId, currentRoomSize);
        assert old(View())[roomId := start][roomId := Filled(start, playerId, currentRoomSize)]
            == old(View())[roomId := AssignRole(d, playerId, currentRoomSize)];
      }
    }

    /** Lines 82-95 of `joinRoom`, on the object stored under `roomId`. */
    method AssignSlot(roomId: RoomId, playerId: ConnId, currentRoomSize: nat) returns (room: Room)
      requires Valid() && roomId in rooms
      modifies At(roomId)
      ensures rooms == old(rooms) && room == rooms[roomId]
      ensures View() == old(View())[roomId := Filled(old(View())[roomId], playerId, currentRoomSize)]
    {
      room := rooms[roomId];
      var player1Id, player2Id, status := room.player1Id, room.player2Id, room.status;
      if player1Id.None? {
        player1Id, status := Some(playerId), Playing;
      } else if player2Id.None? {
        player2Id, status := Some(playerId), Playing;
      }
      var p1Choice, p2Choice := room.p1Choice, room.p2Choice;
      if currentRoomSize >= 2 {
        p1Choice, p2Choice := None, None;
      }
      assert RoomData(p1Choice, p2Choice, room.p1Score, room.p2Score, player1Id, player2Id, status)
          == Filled(room.Data(), playerId, currentRoomSize);
      room.player1Id, room.player2Id, room.status, room.p1Choice, room.p2Choice
        := player1Id, player2Id, status, p1Choice, p2Choice;
      assert forall id :: id in rooms && id != roomId ==> rooms[id] != room;
    }

    /** `deleteRoom`: forget the room under `roomId`, and only that one. */
    method DeleteRoom(roomId: RoomId)
      requires Valid()
      modifies this
      ensures Valid()
      ensures rooms == old(rooms) - {roomId}
      ensures View() == old(View()) - {roomId}
    {
      rooms := rooms - {roomId};
    }

    /** `resetRoomOnPlayerLeave`: no effect on an absent id; otherwise the
        room is vacated as `Vacate` says. */
    method ResetRoomOnPlayerLeave(roomId: RoomId, isPlayer1: bool)
      requires Valid()
      modifies At(roomId)
      ensures rooms == old(rooms)
      ensures View() == if roomId in old(rooms) then old(View())[roomId := Vacate(old(View())[roomId], isPlayer1)]
                        else old(View())
    {
      if roomId !in rooms {
        return;
      }
      var room := rooms[roomId];
      if isPlayer1 {
        room.player1Id := None;
      } else {
        room.player2Id := None;
      }
      room.p1Choice := None;
      room.p2Choice := None;
      room.p1Score := 0;
      room.p2Score := 0;
      room.status := Waiting;
      assert forall id :: id in rooms && id != roomId ==> rooms[id] != room;
    }

    /** `setChoice`: false and no effect on an absent id; otherwise the
        move goes into the named player's slot and the result is true. */
    method SetChoice(roomId: RoomId, isPlayer1: bool, choice: Choice) returns (ok: bool)
      requires Valid()
      modifies At(roomId)
      ensures rooms == old(rooms)
      ensures ok <==> roomId in rooms
      ensures View() == if ok then old(View())[roomId := WithChoice(old(View())[roomId], isPlayer1, choice)]
                        else old(View())
    {
      if roomId !in rooms {
        return false;
      }
      var room := rooms[roomId];
      if isPlayer1 {
        room.p1Choice := Some(choice);
      } else {
        room.p2Choice := Some(choice);
      }
      assert forall id :: id in rooms && id != roomId ==> rooms[id] != room;
      return true;
    }

    /** `resetChoices`: clear both moves of a stored room. */
    method ResetChoices(roomId: RoomId)
      requires Valid()
      modifies At(roomId)
      ensures rooms == old(rooms)
      ensures View() == if roomId in old(rooms) then old(View())[roomId := WithoutChoices(old(View())[roomId])]
                        else old(View())
    {
      if roomId in rooms {
        var room := rooms[roomId];
        room.p1Choice := None;
        room.p2Choice := None;
        assert forall id :: id in rooms && id != roomId ==> rooms[id] != room;
      }
    }

    /** `updateScore`: one point to the winner of a stored room. */
    method UpdateScore(roomId: RoomId, winner: WinnerType)
      requires Valid()
      modifies At(roomId)
      ensures rooms == old(rooms)
      ensures View() == if roomId in old(rooms) then old(View())[roomId := Scored(old(View())[roomId], winner)]
                        else old(View())
    {
      if roomId !in rooms {
        return;
      }
      var room := rooms[roomId];
      if winner == Player1 {
        room.p1Score := room.p1Score + 1;
      } else if winner == Player2 {
        room.p2Score := room.p2Score + 1;
      }
      assert forall id :: id in rooms && id != roomId ==> rooms[id] != room;
    }
  }
}
