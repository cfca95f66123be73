/** The session handlers of server/socket/handlers.js: one method per
    client event, over the room registry, the transport and the queue of
    callbacks deferred with `setImmediate`. Each handler states the new
    registry value, the group memberships and the events it emits, branch
    by branch, and keeps the `WellFormed` invariant of every stored room. */
module Handlers {
  import opened Js
  import opened Constants
  import opened GameLogic
  import opened Validation
  import opened Transport
  import opened Rooms

  /** A callback deferred with `setImmediate`. `EmitPlayersConnected`
      captures the room object itself, so it sees later in-place updates. */
  datatype Task =
    | EmitPlayersConnected(roomId: RoomId, roomData: Room)
    | DeclareWinner(roomId: RoomId)

  /** The queue of deferred callbacks, run oldest first. */
  class EventLoop {
    var immediates: seq<Task>

    constructor ()
      ensures immediates == []
    {
      immediates := [];
    }

    /** `setImmediate(callback)`. */
    method SetImmediate(t: Task)
      modifies this
      ensures immediates == old(immediates) + [t]
    {
      immediates := immediates + [t];
    }

    /** Take the oldest pending callback, if any. */
    method Next() returns (t: Option<Task>)
      modifies this
      ensures old(immediates) == [] ==> t == None && immediates == []
      ensures old(immediates) != [] ==> t == Some(old(immediates)[0]) && immediates == old(immediates)[1..]
    {
      if immediates == [] {
        return None;
      }
      t := Some(immediates[0]);
      immediates := immediates[1..];
    }
  }

  /** The payload of "p1Choice" and "p2Choice"; a missing or falsy
      `roomID` is the empty string. */
  datatype ChoicePayload = ChoicePayload(roomId: RoomId, rpschoice: JsValue)

  // ---------------------------------------------------------------------
  // Moves

  /** The payload checks of `handlePlayerChoice` (lines 210 and 219): a
      room id is given and the move is one of the three names. */
  predicate PayloadOk(data: Option<ChoicePayload>)
  {
    data.Some? && data.value.roomId != "" && IsValidChoice(data.value.rpschoice)
  }

  /** The checks of `handlePlayerChoice`, in the order the handler makes
      them: the move it records, or the error it sends back. `room` is the
      stored room under the payload's id and `roomSize` the size of its
      group. */
  function CheckChoice(data: Option<ChoicePayload>, room: Option<RoomData>, roomSize: nat,
                       sender: ConnId, isPlayer1: bool): (r: Result<Choice, GameMessage>)
    ensures r.Ok? <==>
      && PayloadOk(data) && room.Some? && roomSize >= 2
      && (if isPlayer1 then room.value.player1Id else room.value.player2Id) == Some(sender)
      && (if isPlayer1 then room.value.player2Id else room.value.player1Id).Some?
      && (if isPlayer1 then room.value.p1Choice else room.value.p2Choice).None?
    ensures r.Ok? ==> data.value.rpschoice == Str(Name(r.value))
    // The first failing check decides the error. A bad payload is refused
    // before the room is looked at, although the source reads the room first.
    ensures r == Err(InvalidChoice) <==> !PayloadOk(data)
    ensures r == Err(RoomNotFound) <==> PayloadOk(data) && room.None?
    ensures r == Err(NeedTwoPlayers) <==> PayloadOk(data) && room.Some? && roomSize < 2
    ensures r == Err(if isPlayer1 then NotPlayer1 else NotPlayer2) <==>
      && PayloadOk(data) && room.Some? && roomSize >= 2
      && (if isPlayer1 then room.value.player1Id else room.value.player2Id) != Some(sender)
    ensures r == Err(OpponentNotInRoom) <==>
      && PayloadOk(data) && room.Some? && roomSize >= 2
      && (if isPlayer1 then room.value.player1Id else room.value.player2Id) == Some(sender)
      && (if isPlayer1 then room.value.player2Id else room.value.player1Id).None?
    ensures r == Err(AlreadyChosen) <==>
      && PayloadOk(data) && room.Some? && roomSize >= 2
      && (if isPlayer1 then room.value.player1Id else room.value.player2Id) == Some(sender)
      && (if isPlayer1 then room.value.player2Id else room.value.player1Id).Some?
      && (if isPlayer1 then room.value.p1Choice else room.value.p2Choice).Some?
  {
    if data.None? || data.value.roomId == "" || !Truthy(data.value.rpschoice) then Err(InvalidChoice)
    else if !IsValidChoice(data.value.rpschoice) then Err(InvalidChoice)
    else if room.None? then Err(RoomNotFound)
    else if roomSize < 2 then Err(NeedTwoPlayers)
    else if (if isPlayer1 then room.value.player1Id else room.value.player2Id) != Some(sender) then
      Err(if isPlayer1 then NotPlayer1 else NotPlayer2)
    else if (if isPlayer1 then room.value.player2Id else room.value.player1Id).None? then
      Err(OpponentNotInRoom)
    else if (if isPlayer1 then room.value.p1Choice else room.value.p2Choice).Some? then
      Err(AlreadyChosen)
    else
      var c := ParseChoice(data.value.rpschoice.s);
      Ok(c.value)
  }

  /** Only the socket holding a role can move for it: a claim for the
      other role, or for a role nobody holds, is refused with that role's
      error whatever the move and the round state. */
  lemma ImpostorRefused(data: Option<ChoicePayload>, d: RoomData, roomSize: nat,
                        sender: ConnId, isPlayer1: bool)
    requires data.Some? && data.value.roomId != "" && IsValidChoice(data.value.rpschoice)
    requires roomSize >= 2
    requires (if isPlayer1 then d.player1Id else d.player2Id) != Some(sender)
    ensures CheckChoice(data, Some(d), roomSize, sender, isPlayer1)
            == Err(if isPlayer1 then NotPlayer1 else NotPlayer2)
  {
    assert Truthy(data.value.rpschoice);
  }

  /** One move per player per round: once a move has been accepted and
      recorded, any further valid move by the same player in that room is
      refused with "already chosen". */
  lemma SecondMoveRefused(data: Option<ChoicePayload>, again: Option<ChoicePayload>, d: RoomData,
                          roomSize: nat, sender: ConnId, isPlayer1: bool)
    requires CheckChoice(data, Some(d), roomSize, sender, isPlayer1).Ok?
    requires again.Some? && again.value.roomId != "" && IsValidChoice(again.value.rpschoice)
    ensures var c := CheckChoice(data, Some(d), roomSize, sender, isPlayer1).value;
            CheckChoice(again, Some(WithChoice(d, isPlayer1, c)), roomSize, sender, isPlayer1)
            == Err(AlreadyChosen)
  {
    assert Truthy(again.value.rpschoice);
  }

  /** The verdict of `CheckChoice` on the current state. */
  ghost function Verdict(io: Io, rm: RoomManager, sender: ConnId, data: Option<ChoicePayload>,
                         isPlayer1: bool): Result<Choice, GameMessage>
    reads io, rm, rm.rooms.Values
  {
    var roomId := if data.Some? then data.value.roomId else "";
    CheckChoice(data, rm.Lookup(roomId), |io.Members(roomId)|, sender, isPlayer1)
  }

  /** `handlePlayerChoice`: on a refused move, the error goes back to the
      sender and nothing else happens. On an accepted move the move is
      recorded, the rest of the group hears it with the current scores,
      the sender hears the opponent's move if it was already made, and the
      outcome is scheduled once both moves are in. */
  method HandlePlayerChoice(io: Io, rm: RoomManager, loop: EventLoop, sender: ConnId,
                            data: Option<ChoicePayload>, isPlayer1: bool)
    requires io.Valid() && rm.Valid()
    modifies io, rm.rooms.Values, loop
    ensures io.Valid() && rm.Valid()
    ensures old(rm.AllWellFormed()) ==> rm.AllWellFormed()
    ensures io.live == old(io.live) && io.groups == old(io.groups) && rm.rooms == old(rm.rooms)
    ensures old(Verdict(io, rm, sender, data, isPlayer1)).Err? ==>
      && io.outbox == old(io.outbox) + [Envelope({sender}, Error(old(Verdict(io, rm, sender, data, isPlayer1)).error))]
      && rm.View() == old(rm.View())
      && loop.immediates == old(loop.immediates)
    ensures old(Verdict(io, rm, sender, data, isPlayer1)).Ok? ==>
      var c := old(Verdict(io, rm, sender, data, isPlayer1)).value;
      var roomId := data.value.roomId;
      var d := old(rm.View())[roomId];
      var opponentChoice := if isPlayer1 then d.p2Choice else d.p1Choice;
      && rm.View() == old(rm.View())[roomId := WithChoice(d, isPlayer1, c)]
      && io.outbox == old(io.outbox)
           + [Envelope(old(io.Members(roomId)) - {sender},
                       ChoiceMade(isPlayer1, c, if isPlayer1 then d.p1Score else d.p2Score, d.p1Score, d.p2Score))]
           + (if opponentChoice.Some?
              then [Envelope({sender}, ChoiceMade(!isPlayer1, opponentChoice.value,
                                                  if isPlayer1 then d.p2Score else d.p1Score, d.p1Score, d.p2Score))]
              else [])
      && loop.immediates == old(loop.immediates) + (if opponentChoice.Some? then [DeclareWinner(roomId)] else [])
  {
    var roomId := if data.Some? then data.value.roomId else "";
    var room := rm.GetRoom(roomId);
    var roomSize := |io.Members(roomId)|;
    var verdict := CheckChoice(data, if room.Some? then Some(room.value.Data()) else None, roomSize, sender, isPlayer1);
    match verdict
    case Err(message) =>
      io.SendTo(sender, Error(message));
    case Ok(c) =>
      RecordMove(io, rm, loop, sender, roomId, isPlayer1, c);
  }

  /** Lines 258-292 of `handlePlayerChoice`, once the move is accepted. */
  method RecordMove(io: Io, rm: RoomManager, loop: EventLoop, sender: ConnId, roomId: RoomId,
                    isPlayer1: bool, c: Choice)
    requires io.Valid() && rm.Valid() && roomId in rm.rooms
    requires rm.rooms[roomId].player1Id.Some? && rm.rooms[roomId].player2Id.Some?
    modifies io, rm.rooms.Values, loop
    ensures io.Valid() && rm.Valid()
    ensures old(rm.AllWellFormed()) ==> rm.AllWellFormed()
    ensures io.live == old(io.live) && io.groups == old(io.groups) && rm.rooms == old(rm.rooms)
    ensures var d := old(rm.View())[roomId];
      var opponentChoice := if isPlayer1 then d.p2Choice else d.p1Choice;
      && rm.View() == old(rm.View())[roomId := WithChoice(d, isPlayer1, c)]
      && io.outbox == old(io.outbox)
           + [Envelope(old(io.Members(roomId)) - {sender},
                       ChoiceMade(isPlayer1, c, if isPlayer1 then d.p1Score else d.p2Score, d.p1Score, d.p2Score))]
           + (if opponentChoice.Some?
              then [Envelope({sender}, ChoiceMade(!isPlayer1, opponentChoice.value,
                                                  if isPlayer1 then d.p2Score else d.p1Score, d.p1Score, d.p2Score))]
              else [])
      && loop.immediates == old(loop.immediates) + (if opponentChoice.Some? then [DeclareWinner(roomId)] else [])
  {
    var r := rm.rooms[roomId];
    ghost var before := rm.View();
    ghost var d := before[roomId];
    var _ := rm.SetChoice(roomId, isPlayer1, c);
    assert rm.View()[roomId] == r.Data();
    if AllWellFormedIn(before) {
      RoundStepsWellFormed(d, isPlayer1, c, Draw);
      AllWellFormedKept(before, roomId, WithChoice(d, isPlayer1, c));
    }
    ghost var after := rm.View();
    var p1Score, p2Score := r.p1Score, r.p2Score;
    var opponentChoice := if isPlayer1 then r.p2Choice else r.p1Choice;
    assert p1Score == d.p1Score && p2Score == d.p2Score;
    assert opponentChoice == (if isPlayer1 then d.p2Choice else d.p1Choice);
    var bothChosen := r.p1Choice.Some? && r.p2Choice.Some?;
    assert bothChosen == opponentChoice.Some?;
    AnnounceMove(io, loop, sender, roomId, isPlayer1, c, p1Score, p2Score, opponentChoice, bothChosen);
    assert rm.View() == after;
  }

  /** Lines 262-292 of `handlePlayerChoice`: the events and the deferred
      outcome that follow a recorded move. */
  method AnnounceMove(io: Io, loop: EventLoop, sender: ConnId, roomId: RoomId, isPlayer1: bool, c: Choice,
                      p1Score: nat, p2Score: nat, opponentChoice: Option<Choice>, bothChosen: bool)
    modifies io, loop
    ensures io.live == old(io.live) && io.groups == old(io.groups)
    ensures io.outbox == old(io.outbox)
           + [Envelope(old(io.Members(roomId)) - {sender},
                       ChoiceMade(isPlayer1, c, if isPlayer1 then p1Score else p2Score, p1Score, p2Score))]
           + (if opponentChoice.Some?
              then [Envelope({sender}, ChoiceMade(!isPlayer1, opponentChoice.value,
                                                  if isPlayer1 then p2Score else p1Score, p1Score, p2Score))]
              else [])
    ensures loop.immediates == old(loop.immediates) + (if bothChosen then [DeclareWinner(roomId)] else [])
  {
    io.BroadcastFrom(sender, roomId, ChoiceMade(isPlayer1, c, if isPlayer1 then p1Score else p2Score,
                                               p1Score, p2Score));
    if opponentChoice.Some? {
      io.SendTo(sender, ChoiceMade(!isPlayer1, opponentChoice.value, if isPlayer1 then p2Score else p1Score,
                                   p1Score, p2Score));
    }
    if bothChosen {
      loop.SetImmediate(DeclareWinner(roomId));
    }
  }

  // ---------------------------------------------------------------------
  // Outcome of a round, next round

  /** `declareWinner`, run from the queue: with both moves of a stored room
      in, score the round and tell the whole group the outcome with the new
      scores; otherwise do nothing. */
  method RunDeclareWinner(io: Io, rm: RoomManager, roomId: RoomId)
    requires io.Valid() && rm.Valid()
    modifies io, rm.rooms.Values
    ensures io.Valid() && rm.Valid()
    ensures old(rm.AllWellFormed()) ==> rm.AllWellFormed()
    ensures io.live == old(io.live) && io.groups == old(io.groups) && rm.rooms == old(rm.rooms)
    ensures var room := old(rm.Lookup(roomId));
      if room.Some? && room.value.p1Choice.Some? && room.value.p2Choice.Some? then
        var d := room.value;
        var w := DetermineWinner(Name(d.p1Choice.value), Name(d.p2Choice.value));
        var s := Scored(d, w);
        && rm.View() == old(rm.View())[roomId := s]
        && io.outbox == old(io.outbox)
             + [Envelope(old(io.Members(roomId)), Winner(w, s.p1Score, s.p2Score, d.p1Choice.value, d.p2Choice.value))]
      else
        rm.View() == old(rm.View()) && io.outbox == old(io.outbox)
  {
    var room := rm.GetRoom(roomId);
    if room.None? || room.value.p1Choice.None? || room.value.p2Choice.None? {
      return;
    }
    var r := room.value;
    ghost var before := rm.View();
    var winner := DetermineWinner(Name(r.p1Choice.value), Name(r.p2Choice.value));
    rm.UpdateScore(roomId, winner);
    assert rm.View()[roomId] == r.Data();
    if AllWellFormedIn(before) {
      RoundStepsWellFormed(before[roomId], true, Rock, winner);
      AllWellFormedKept(before, roomId, Scored(before[roomId], winner));
    }
    var outcome := Winner(winner, r.p1Score, r.p2Score, r.p1Choice.value, r.p2Choice.value);
    assert outcome.p1Score == Scored(before[roomId], winner).p1Score;
    assert outcome.p2Score == Scored(before[roomId], winner).p2Score;
    ghost var after := rm.View();
    io.BroadcastTo(roomId, outcome);
    assert rm.View() == after;
  }

  /** The outcome announced after a round names the player whose move
      beats the other's, and a draw exactly when the moves are equal. */
  lemma AnnouncedOutcome(d: RoomData)
    requires d.p1Choice.Some? && d.p2Choice.Some?
    ensures var w := DetermineWinner(Name(d.p1Choice.value), Name(d.p2Choice.value));
      && (w == Draw <==> d.p1Choice == d.p2Choice)
      && (w == Player1 <==> Beats(d.p1Choice.value, d.p2Choice.value))
      && (w == Player2 <==> Beats(d.p2Choice.value, d.p1Choice.value))
  {
    ResolvesByBeats(d.p1Choice.value, d.p2Choice.value);
  }

  /** `handlePlayAgain`: clear the moves of a stored room, and tell the
      whole group to play again in any case. */
  method HandlePlayAgain(io: Io, rm: RoomManager, roomId: RoomId)
    requires io.Valid() && rm.Valid()
    modifies io, rm.rooms.Values
    ensures io.Valid() && rm.Valid()
    ensures old(rm.AllWellFormed()) ==> rm.AllWellFormed()
    ensures io.live == old(io.live) && io.groups == old(io.groups) && rm.rooms == old(rm.rooms)
    ensures rm.View() == if roomId in old(rm.rooms) then old(rm.View())[roomId := WithoutChoices(old(rm.View())[roomId])]
                         else old(rm.View())
    ensures io.outbox == old(io.outbox) + [Envelope(old(io.Members(roomId)), PlayAgain)]
  {
    if rm.GetRoom(roomId).Some? {
      ghost var before := rm.View();
      rm.ResetChoices(roomId);
      if AllWellFormedIn(before) {
        RoundStepsWellFormed(before[roomId], true, Rock, Draw);
        AllWellFormedKept(before, roomId, WithoutChoices(before[roomId]));
      }
    }
    io.BroadcastTo(roomId, PlayAgain);
  }

  // ---------------------------------------------------------------------
  // Creating and leaving rooms

  /** `handleCreateRoom`: store a waiting room with the sender as player 1
      under the id as given, replacing any room of that id. The creator
      joins no group and gets no reply. */
  method HandleCreateRoom(rm: RoomManager, sender: ConnId, roomId: RoomId)
    requires rm.Valid()
    modifies rm
    ensures rm.Valid()
    ensures rm.View() == old(rm.View())[roomId := NewRoom(Some(sender), Waiting)]
    ensures old(rm.AllWellFormed()) ==> rm.AllWellFormed()
    ensures roomId in rm.rooms && fresh(rm.rooms[roomId]) && rm.rooms == old(rm.rooms)[roomId := rm.rooms[roomId]]
  {
    ghost var before := rm.View();
    var _ := rm.CreateRoom(roomId, sender);
    if AllWellFormedIn(before) {
      NewRoomWellFormed(sender);
      AllWellFormedKept(before, roomId, NewRoom(Some(sender), Waiting));
    }
  }

  /** `handleExitGame`: the sender leaves the group; if the room is stored,
      the role the payload names is vacated, the rest of the group is told
      the opponent left, and a room whose group is now empty is deleted.
      The role comes from the payload (`player === true` names player 1),
      not from the sender's id. */
  method HandleExitGame(io: Io, rm: RoomManager, sender: ConnId, roomId: RoomId, player: JsValue)
    requires io.Valid() && rm.Valid()
    modifies io, rm, rm.rooms.Values
    ensures io.Valid() && rm.Valid()
    ensures old(rm.AllWellFormed()) ==> rm.AllWellFormed()
    ensures io.live == old(io.live)
    ensures io.groups == old(io.groups)[roomId := old(io.Members(roomId)) - {sender}]
    ensures roomId !in old(rm.rooms) ==> rm.View() == old(rm.View()) && io.outbox == old(io.outbox)
    ensures roomId in old(rm.rooms) ==>
      var rest := old(io.Members(roomId)) - {sender};
      && io.outbox == old(io.outbox) + [Envelope(rest, OpponentLeft(OpponentLeftMessage, roomId))]
      && rm.View() == if rest == {} then old(rm.View()) - {roomId}
                      else old(rm.View())[roomId := Vacate(old(rm.View())[roomId], player == Bool(true))]
  {
    io.Leave(sender, roomId);
    assert io.Members(roomId) - {sender} == old(io.Members(roomId)) - {sender};
    var room := rm.GetRoom(roomId);
    if room.Some? {
      var isPlayer1 := player == Bool(true);
      VacateAfterExit(io, rm, sender, roomId, isPlayer1);
    }
  }

  /** Lines 322-336 of `handleExitGame`, once the sender has left the group
      of the stored room `roomId`. */
  method VacateAfterExit(io: Io, rm: RoomManager, sender: ConnId, roomId: RoomId, isPlayer1: bool)
    requires io.Valid() && rm.Valid() && roomId in rm.rooms && sender !in io.Members(roomId)
    modifies io, rm, rm.rooms.Values
    ensures io.Valid() && rm.Valid()
    ensures old(rm.AllWellFormed()) ==> rm.AllWellFormed()
    ensures io.live == old(io.live) && io.groups == old(io.groups)
    ensures var rest := old(io.Members(roomId));
      && io.outbox == old(io.outbox) + [Envelope(rest, OpponentLeft(OpponentLeftMessage, roomId))]
      && rm.View() == if rest == {} then old(rm.View()) - {roomId}
                      else old(rm.View())[roomId := Vacate(old(rm.View())[roomId], isPlayer1)]
  {
    ghost var before := rm.View();
    rm.ResetRoomOnPlayerLeave(roomId, isPlayer1);
    if AllWellFormedIn(before) {
      VacateWellFormed(before[roomId], isPlayer1);
      AllWellFormedKept(before, roomId, Vacate(before[roomId], isPlayer1));
    }
    assert io.Members(roomId) - {sender} == old(io.Members(roomId));
    assert before[roomId := Vacate(before[roomId], isPlayer1)] - {roomId} == before - {roomId};
    NotifyThenDeleteIfEmpty(io, rm, sender, roomId);
    assert io.Members(roomId) == old(io.Members(roomId));
  }

  /** Lines 326-336 of `handleExitGame`: tell the rest of the group, then
      delete the room if the group is empty. */
  method NotifyThenDeleteIfEmpty(io: Io, rm: RoomManager, sender: ConnId, roomId: RoomId)
    requires io.Valid() && rm.Valid()
    modifies io, rm
    ensures io.Valid() && rm.Valid()
    ensures old(rm.AllWellFormed()) ==> rm.AllWellFormed()
    ensures io.live == old(io.live) && io.groups == old(io.groups)
    ensures io.outbox == old(io.outbox) + [Envelope(io.Members(roomId) - {sender}, OpponentLeft(OpponentLeftMessage, roomId))]
    ensures rm.View() == if io.Members(roomId) == {} then old(rm.View()) - {roomId} else old(rm.View())
  {
    io.BroadcastFrom(sender, roomId, OpponentLeft(OpponentLeftMessage, roomId));
    if io.Members(roomId) == {} {
      ghost var before := rm.View();
      rm.DeleteRoom(roomId);
      if AllWellFormedIn(before) {
        AllWellFormedKept(before, roomId, NewRoom(None, Waiting));
      }
    }
  }

  /** The position in `order` of the first room in which `conn` holds a
      role, if any. */
  function FirstRoomOf(order: seq<RoomId>, view: map<RoomId, RoomData>, conn: ConnId, from: nat): (k: Option<nat>)
    requires from <= |order|
    requires forall id :: id in order ==> id in view
    ensures k.Some? ==> from <= k.value < |order| && HoldsRole(view[order[k.value]], conn)
    ensures k.Some? ==> forall j :: from <= j < k.value ==> !HoldsRole(view[order[j]], conn)
    ensures k.None? ==> forall j :: from <= j < |order| ==> !HoldsRole(view[order[j]], conn)
    decreases |order| - from
  {
    if from == |order| then None
    else if HoldsRole(view[order[from]], conn) then Some(from)
    else FirstRoomOf(order, view, conn, from + 1)
  }

  /** Lines 63-84 of `handleDisconnect`, for the room under `roomId` in
      which the departed socket holds a role. */
  method LeaveRoomOf(io: Io, rm: RoomManager, sender: ConnId, roomId: RoomId)
    requires io.Valid() && rm.Valid() && roomId in rm.rooms && sender !in io.live
    requires HoldsRole(rm.rooms[roomId].Data(), sender)
    modifies io, rm, rm.rooms.Values
    ensures io.Valid() && rm.Valid()
    ensures old(rm.AllWellFormed()) ==> rm.AllWellFormed()
    ensures io.live == old(io.live) && io.groups == old(io.groups)
    ensures var d := old(rm.View())[roomId];
      var rest := old(io.Members(roomId)) - {sender};
      if rest == {} then
        rm.View() == old(rm.View()) - {roomId} && io.outbox == old(io.outbox)
      else
        && rm.View() == old(rm.View())[roomId := Vacate(d, d.player1Id == Some(sender))]
        && io.outbox == old(io.outbox) + [Envelope(rest, OpponentLeft(OpponentLeftMessage, roomId))]
  {
    ghost var before := rm.View();
    var isPlayer1 := rm.rooms[roomId].player1Id == Some(sender);
    assert isPlayer1 == (before[roomId].player1Id == Some(sender));
    assert io.Members(roomId) == old(io.Members(roomId)) - {sender};
    rm.ResetRoomOnPlayerLeave(roomId, isPlayer1);
    if AllWellFormedIn(before) {
      VacateWellFormed(before[roomId], isPlayer1);
      AllWellFormedKept(before, roomId, Vacate(before[roomId], isPlayer1));
    }
    NotifyOrDelete(io, rm, sender, roomId);
  }

  /** Lines 69-84 of `handleDisconnect`: tell the rest of the group, or
      delete the room when the group is empty. */
  method NotifyOrDelete(io: Io, rm: RoomManager, sender: ConnId, roomId: RoomId)
    requires io.Valid() && rm.Valid()
    modifies io, rm
    ensures io.Valid() && rm.Valid()
    ensures old(rm.AllWellFormed()) ==> rm.AllWellFormed()
    ensures io.live == old(io.live) && io.groups == old(io.groups)
    ensures io.Members(roomId) == {} ==> rm.View() == old(rm.View()) - {roomId} && io.outbox == old(io.outbox)
    ensures io.Members(roomId) != {} ==>
      rm.View() == old(rm.View()) && io.outbox == old(io.outbox) + [Envelope(io.Members(roomId) - {sender}, OpponentLeft(OpponentLeftMessage, roomId))]
  {
    var remainingSize := |io.Members(roomId)|;
    if remainingSize > 0 {
      io.BroadcastFrom(sender, roomId, OpponentLeft(OpponentLeftMessage, roomId));
    } else {
      ghost var before := rm.View();
      rm.DeleteRoom(roomId);
      if AllWellFormedIn(before) {
        AllWellFormedKept(before, roomId, NewRoom(None, Waiting));
      }
    }
  }

  /** The effect of a departure on the registry and the outbox: the first
      room, in `order`, in which `sender` holds a role is vacated and the
      rest of its group (`members`, which no longer holds `sender`) is told
      the opponent left, or the room is deleted when nobody is left. */
  ghost predicate Departed(order: seq<RoomId>, view: map<RoomId, RoomData>, members: map<RoomId, set<ConnId>>,
                           outbox: seq<Envelope>, sender: ConnId,
                           view': map<RoomId, RoomData>, outbox': seq<Envelope>)
    requires forall id :: id in order ==> id in view
  {
    match FirstRoomOf(order, view, sender, 0)
    case None => view' == view && outbox' == outbox
    case Some(k) =>
      var id := order[k];
      var d := view[id];
      var rest := if id in members then members[id] else {};
      if rest == {} then
        view' == view - {id} && outbox' == outbox
      else
        && view' == view[id := Vacate(d, d.player1Id == Some(sender))]
        && outbox' == outbox + [Envelope(rest, OpponentLeft(OpponentLeftMessage, id))]
  }

  /** After a departure the socket holds no role in the room it left (or
      that room is gone), it held no role anywhere if no room was left, no
      other room changes, and every room stays well formed. */
  lemma DepartureFreesSender(order: seq<RoomId>, view: map<RoomId, RoomData>, members: map<RoomId, set<ConnId>>,
                             outbox: seq<Envelope>, sender: ConnId,
                             view': map<RoomId, RoomData>, outbox': seq<Envelope>)
    requires forall id :: id in order ==> id in view
    requires AllWellFormedIn(view)
    requires Departed(order, view, members, outbox, sender, view', outbox')
    ensures AllWellFormedIn(view')
    ensures FirstRoomOf(order, view, sender, 0).None? ==>
      view' == view && forall j :: 0 <= j < |order| ==> !HoldsRole(view[order[j]], sender)
    ensures FirstRoomOf(order, view, sender, 0).Some? ==>
      var id := order[FirstRoomOf(order, view, sender, 0).value];
      && (id in view' ==> !HoldsRole(view'[id], sender))
      && (forall other :: other in view' && other != id ==> other in view && view'[other] == view[other])
  {
    match FirstRoomOf(order, view, sender, 0)
    case None =>
    case Some(k) =>
      var id := order[k];
      var d := view[id];
      VacateForgetsLeaver(d, sender);
      VacateWellFormed(d, d.player1Id == Some(sender));
      AllWellFormedKept(view, id, Vacate(d, d.player1Id == Some(sender)));
  }

  /** `handleDisconnect`. Socket.IO has already dropped the socket from the
      connected set and from every group when the handler runs (the first
      step here). `order` is the order in which `Object.entries` lists the
      stored ids. */
  method HandleDisconnect(io: Io, rm: RoomManager, sender: ConnId, order: seq<RoomId>)
    requires io.Valid() && rm.Valid()
    requires forall id :: id in order <==> id in rm.rooms
    modifies io, rm, rm.rooms.Values
    ensures io.Valid() && rm.Valid()
    ensures old(rm.AllWellFormed()) ==> rm.AllWellFormed()
    ensures io.live == old(io.live) - {sender}
    ensures io.groups == map id | id in old(io.groups) :: old(io.groups)[id] - {sender}
    ensures Departed(order, old(rm.View()), io.groups, old(io.outbox), sender, rm.View(), io.outbox)
  {
    io.Drop(sender);
    assert rm.View() == old(rm.View());
    LeaveFirstRoom(io, rm, sender, order);
  }

  /** Lines 60-87 of `handleDisconnect`: the scan of the stored rooms, once
      the socket is gone. */
  method LeaveFirstRoom(io: Io, rm: RoomManager, sender: ConnId, order: seq<RoomId>)
    requires io.Valid() && rm.Valid() && sender !in io.live
    requires forall id :: id in order <==> id in rm.rooms
    modifies io, rm, rm.rooms.Values
    ensures io.Valid() && rm.Valid()
    ensures old(rm.AllWellFormed()) ==> rm.AllWellFormed()
    ensures io.live == old(io.live) && io.groups == old(io.groups)
    ensures Departed(order, old(rm.View()), io.groups, old(io.outbox), sender, rm.View(), io.outbox)
  {
    var rooms := rm.GetAllRooms();
    ghost var view := rm.View();
    var i := 0;
    while i < |order|
      invariant 0 <= i <= |order|
      invariant forall j :: 0 <= j < i ==> !HoldsRole(view[order[j]], sender)
      invariant rm.rooms == rooms && rm.View() == view
      invariant io.outbox == old(io.outbox) && io.live == old(io.live) && io.groups == old(io.groups)
    {
      var roomId := order[i];
      var roomData := rooms[roomId];
      assert roomData.Data() == view[roomId];
      if roomData.player1Id == Some(sender) || roomData.player2Id == Some(sender) {
        assert FirstRoomOf(order, view, sender, 0) == Some(i);
        assert io.Members(roomId) == io.Members(roomId) - {sender};
        LeaveRoomOf(io, rm, sender, roomId);
        return;
      }
      i := i + 1;
    }
    assert FirstRoomOf(order, view, sender, 0).None?;
  }

  // ---------------------------------------------------------------------
  // Joining a room, announcing the pair

  /** How `handleJoinRoom` treats a request, decided by the stored room,
      the connected sockets and the members of the room's group. */
  datatype JoinStep =
    | UnknownRoom   // no stored room: "notValidToken"
    | OwnRoom       // the creator asks to join its own room: ignored
    | CreatorGone   // player 1 is not connected (or not set): "notValidToken"
    | RoomIsFull    // the group would exceed two members: "roomFull"
    | Paired        // the joiner is admitted

  function JoinStepOf(room: Option<RoomData>, live: set<ConnId>, members: set<ConnId>, sender: ConnId): JoinStep
  {
    if room.None? then UnknownRoom
    else if room.value.player1Id == Some(sender) then OwnRoom
    else if room.value.player1Id.None? || room.value.player1Id.value !in live then CreatorGone
    else if |members + {room.value.player1Id.value, sender}| > 2 then RoomIsFull
    else Paired
  }

  lemma AtLeastTwo(s: set<ConnId>, a: ConnId, b: ConnId)
    requires a in s && b in s && a != b
    ensures |s| >= 2
  {
    var rest := s - {a, b};
    assert s == rest + {a, b};
  }

  /** An admitted joiner always makes a group of exactly two with the
      creator, so `joinRoom` is never asked for its stale-room reset and
      never creates a room; it only fills a slot. */
  lemma {:induction false} PairedMeansTwo(d: RoomData, live: set<ConnId>, members: set<ConnId>, sender: ConnId)
    requires JoinStepOf(Some(d), live, members, sender) == Paired
    ensures d.player1Id.Some? && d.player1Id != Some(sender)
    ensures |members + {d.player1Id.value, sender}| == 2
    ensures !IsStale(d, 2)
  {
    AtLeastTwo(members + {d.player1Id.value, sender}, d.player1Id.value, sender);
  }

  /** `handleJoinRoom`. A request for an unknown room, or one whose creator
      has gone, is answered "notValidToken"; the creator's own request is
      ignored. Otherwise the creator and then the joiner are put in the
      group; if that makes more than two members the joiner is taken out
      again (the creator stays) and answered "roomFull". An admitted joiner
      takes a slot as `AssignRole` says, and the announcement of the pair is
      deferred to the event loop. */
  method HandleJoinRoom(io: Io, rm: RoomManager, loop: EventLoop, sender: ConnId, roomId: RoomId)
    requires io.Valid() && rm.Valid() && sender in io.live
    modifies io, rm, rm.rooms.Values, loop
    ensures io.Valid() && rm.Valid()
    ensures old(rm.AllWellFormed()) ==> rm.AllWellFormed()
    ensures io.live == old(io.live)
    ensures old(JoinStepOf(rm.Lookup(roomId), io.live, io.Members(roomId), sender)) in {UnknownRoom, CreatorGone} ==>
      && io.outbox == old(io.outbox) + [Envelope({sender}, NotValidToken)]
      && io.groups == old(io.groups) && rm.View() == old(rm.View()) && loop.immediates == old(loop.immediates)
    ensures old(JoinStepOf(rm.Lookup(roomId), io.live, io.Members(roomId), sender)) == OwnRoom ==>
      && io.outbox == old(io.outbox)
      && io.groups == old(io.groups) && rm.View() == old(rm.View()) && loop.immediates == old(loop.immediates)
    ensures old(JoinStepOf(rm.Lookup(roomId), io.live, io.Members(roomId), sender)) == RoomIsFull ==>
      var p1 := old(rm.View())[roomId].player1Id.value;
      && io.outbox == old(io.outbox) + [Envelope({sender}, RoomFull)]
      && io.groups == old(io.groups)[roomId := (old(io.Members(roomId)) + {p1}) - {sender}]
      && rm.View() == old(rm.View()) && loop.immediates == old(loop.immediates)
    ensures old(JoinStepOf(rm.Lookup(roomId), io.live, io.Members(roomId), sender)) == Paired ==>
      var p1 := old(rm.View())[roomId].player1Id.value;
      && io.outbox == old(io.outbox)
      && io.groups == old(io.groups)[roomId := old(io.Members(roomId)) + {p1, sender}]
      && rm.rooms == old(rm.rooms)
      && rm.View() == old(rm.View())[roomId := AssignRole(old(rm.View())[roomId], sender, 2)]
      && loop.immediates == old(loop.immediates) + [EmitPlayersConnected(roomId, rm.rooms[roomId])]
  {
    var roomDataInManager := rm.GetRoom(roomId);
    if roomDataInManager.None? {
      io.SendTo(sender, NotValidToken);
      assert rm.View() == old(rm.View());
      return;
    }
    var r := roomDataInManager.value;
    if r.player1Id == Some(sender) {
      return;
    }
    if r.player1Id.None? || r.player1Id.value !in io.live {
      io.SendTo(sender, NotValidToken);
      assert rm.View() == old(rm.View());
      return;
    }
    var p1 := r.player1Id.value;
    assert rm.Lookup(roomId) == Some(rm.View()[roomId]);
    ghost var g := io.Members(roomId) + {p1, sender};
    AdmitOrRefuse(io, rm, loop, sender, roomId, p1);
    assert g - {sender} == (old(io.Members(roomId)) + {p1}) - {sender};
  }

  /** Lines 130-176 of `handleJoinRoom`, once the creator `p1` is known to
      be connected and the joiner is someone else. */
  method AdmitOrRefuse(io: Io, rm: RoomManager, loop: EventLoop, sender: ConnId, roomId: RoomId, p1: ConnId)
    requires io.Valid() && rm.Valid() && roomId in rm.rooms
    requires p1 in io.live && sender in io.live && p1 != sender
    requires rm.rooms[roomId].player1Id == Some(p1)
    modifies io, rm, rm.rooms.Values, loop
    ensures io.Valid() && rm.Valid()
    ensures old(rm.AllWellFormed()) ==> rm.AllWellFormed()
    ensures io.live == old(io.live)
    ensures var g := old(io.Members(roomId)) + {p1, sender};
      |g| > 2 ==>
        && io.outbox == old(io.outbox) + [Envelope({sender}, RoomFull)]
        && io.groups == old(io.groups)[roomId := g - {sender}]
        && rm.View() == old(rm.View()) && loop.immediates == old(loop.immediates)
    ensures var g := old(io.Members(roomId)) + {p1, sender};
      |g| <= 2 ==>
        && io.outbox == old(io.outbox)
        && io.groups == old(io.groups)[roomId := g]
        && rm.rooms == old(rm.rooms)
        && rm.View() == old(rm.View())[roomId := AssignRole(old(rm.View())[roomId], sender, 2)]
        && loop.immediates == old(loop.immediates) + [EmitPlayersConnected(roomId, rm.rooms[roomId])]
  {
    ghost var view := rm.View();
    JoinPair(io, p1, sender, roomId);
    assert rm.View() == view;
    var currentRoomSize := |io.Members(roomId)|;
    if currentRoomSize > 2 {
      RefuseFull(io, sender, roomId);
      assert rm.View() == view;
      return;
    }
    AtLeastTwo(io.Members(roomId), p1, sender);
    JoinAndAnnounce(io, rm, loop, sender, roomId, currentRoomSize);
  }

  /** Lines 130-144 of `handleJoinRoom`: the creator is put back in the
      group if it is not there, then the joiner is added. */
  method JoinPair(io: Io, p1: ConnId, sender: ConnId, roomId: RoomId)
    requires io.Valid() && p1 in io.live && sender in io.live
    modifies io
    ensures io.Valid()
    ensures io.live == old(io.live) && io.outbox == old(io.outbox)
    ensures io.groups == old(io.groups)[roomId := old(io.Members(roomId)) + {p1, sender}]
  {
    if p1 !in io.Members(roomId) {
      io.Join(p1, roomId);
    }
    io.Join(sender, roomId);
    assert io.Members(roomId) == old(io.Members(roomId)) + {p1, sender};
  }

  /** Lines 153-156 of `handleJoinRoom`: the joiner leaves the group again
      and is told the room is full. */
  method RefuseFull(io: Io, sender: ConnId, roomId: RoomId)
    requires io.Valid() && sender in io.live
    modifies io
    ensures io.Valid()
    ensures io.live == old(io.live)
    ensures io.outbox == old(io.outbox) + [Envelope({sender}, RoomFull)]
    ensures io.groups == old(io.groups)[roomId := old(io.Members(roomId)) - {sender}]
  {
    io.Leave(sender, roomId);
    io.SendTo(sender, RoomFull);
  }

  /** Lines 160-176 of `handleJoinRoom`, for an admitted joiner. */
  method JoinAndAnnounce(io: Io, rm: RoomManager, loop: EventLoop, sender: ConnId, roomId: RoomId, currentRoomSize: nat)
    requires io.Valid() && rm.Valid() && roomId in rm.rooms
    requires currentRoomSize == |io.Members(roomId)| == 2
    requires rm.rooms[roomId].player1Id.Some? && rm.rooms[roomId].player1Id != Some(sender)
    modifies rm, rm.rooms.Values, loop
    ensures rm.Valid()
    ensures old(rm.AllWellFormed()) ==> rm.AllWellFormed()
    ensures rm.rooms == old(rm.rooms)
    ensures rm.View() == old(rm.View())[roomId := AssignRole(old(rm.View())[roomId], sender, 2)]
    ensures loop.immediates == old(loop.immediates) + [EmitPlayersConnected(roomId, rm.rooms[roomId])]
  {
    ghost var before := rm.View();
    assert !IsStale(before[roomId], currentRoomSize);
    var roomData := rm.JoinRoom(roomId, sender, currentRoomSize);
    assert rm.rooms == old(rm.rooms);
    ghost var after := rm.View();
    if AllWellFormedIn(before) {
      AssignRoleWellFormed(before[roomId], sender, currentRoomSize);
      AllWellFormedKept(before, roomId, AssignRole(before[roomId], sender, currentRoomSize));
    }
    var newRoomSize := |io.Members(roomId)|;
    if newRoomSize >= 2 {
      loop.SetImmediate(EmitPlayersConnected(roomId, roomData));
    }
    assert rm.View() == after;
  }

  /** The "playersConnected" event `emitPlayersConnected` sends to the
      member `socketId`, from the room as it is when the callback runs. */
  function Announcement(roomId: RoomId, roomSize: nat, d: RoomData, socketId: ConnId): Envelope
  {
    Envelope({socketId}, PlayersConnected(roomId, roomSize, d.player1Id == Some(socketId), d.player1Id, d.player2Id))
  }

  /** The events sent to the members listed in `order`, in that order. */
  function Announcements(roomId: RoomId, roomSize: nat, d: RoomData, order: seq<ConnId>): seq<Envelope>
  {
    if order == [] then []
    else Announcements(roomId, roomSize, d, order[..|order| - 1]) + [Announcement(roomId, roomSize, d, order[|order| - 1])]
  }

  /** Each listed member gets exactly one event, addressed to it alone, and
      is told it is player 1 exactly when it holds that role; so among
      distinct members at most one is told so. */
  lemma {:induction false} AnnouncementsTellRoles(roomId: RoomId, roomSize: nat, d: RoomData, order: seq<ConnId>)
    ensures var a := Announcements(roomId, roomSize, d, order);
      && |a| == |order|
      && (forall i :: 0 <= i < |order| ==>
            && a[i] == Announcement(roomId, roomSize, d, order[i])
            && a[i].recipients == {order[i]}
            && a[i].event.PlayersConnected?
            && a[i].event.roomId == roomId && a[i].event.roomSize == roomSize
            && (a[i].event.isPlayer1 <==> d.player1Id == Some(order[i])))
      && (forall i, j :: 0 <= i < j < |order| && order[i] != order[j] ==> !(a[i].event.isPlayer1 && a[j].event.isPlayer1))
  {
    if order != [] {
      AnnouncementsTellRoles(roomId, roomSize, d, order[..|order| - 1]);
    }
  }

  /** `emitPlayersConnected`, run from the queue: every member of the group
      gets its own "playersConnected" event, built from the room object as
      it is now. The members are visited in some order, returned as
      `order`. When the group is empty the handler throws (it reads the
      size of a missing group) and sends nothing. */
  method RunEmitPlayersConnected(io: Io, roomId: RoomId, roomData: Room) returns (threw: bool, ghost order: seq<ConnId>)
    requires io.Valid()
    modifies io
    ensures io.Valid() && io.live == old(io.live) && io.groups == old(io.groups)
    ensures threw <==> old(io.Members(roomId)) == {}
    ensures threw ==> io.outbox == old(io.outbox)
    ensures !threw ==>
      && |order| == |old(io.Members(roomId))|
      && (forall i, j :: 0 <= i < j < |order| ==> order[i] != order[j])
      && (forall x :: x in order <==> x in old(io.Members(roomId)))
      && io.outbox == old(io.outbox) + Announcements(roomId, |old(io.Members(roomId))|, roomData.Data(), order)
  {
    var roomMembers := io.Members(roomId);
    order := [];
    if roomMembers == {} {
      return true, order;
    }
    threw := false;
    var roomSize := |roomMembers|;
    var remaining := roomMembers;
    while remaining != {}
      invariant remaining <= roomMembers <= io.live
      invariant forall x :: x in order <==> x in roomMembers && x !in remaining
      invariant |order| + |remaining| == |roomMembers|
      invariant forall i, j :: 0 <= i < j < |order| ==> order[i] != order[j]
      invariant io.outbox == old(io.outbox) + Announcements(roomId, roomSize, roomData.Data(), order)
      invariant io.Valid() && io.live == old(io.live) && io.groups == old(io.groups)
      decreases remaining
    {
      var socketId :| socketId in remaining;
      if socketId in io.live {
        var isPlayer1 := roomData.player1Id == Some(socketId);
        io.SendTo(socketId, PlayersConnected(roomId, roomSize, isPlayer1, roomData.player1Id, roomData.player2Id));
      }
      assert (order + [socketId])[..|order|] == order;
      order := order + [socketId];
      remaining := remaining - {socketId};
    }
  }

  /** Run the oldest deferred callback, if any. `threw` reports the error
      `emitPlayersConnected` raises on an empty group. */
  method RunImmediate(io: Io, rm: RoomManager, loop: EventLoop) returns (threw: bool)
    requires io.Valid() && rm.Valid()
    modifies io, rm.rooms.Values, loop
    ensures io.Valid() && rm.Valid()
    ensures old(rm.AllWellFormed()) ==> rm.AllWellFormed()
    ensures io.live == old(io.live) && io.groups == old(io.groups) && rm.rooms == old(rm.rooms)
    ensures loop.immediates == if old(loop.immediates) == [] then [] else old(loop.immediates)[1..]
    ensures threw <==> old(loop.immediates) != [] && old(loop.immediates)[0].EmitPlayersConnected?
                       && old(io.Members(loop.immediates[0].roomId)) == {}
  {
    var next := loop.Next();
    threw := false;
    match next
    case None =>
    case Some(EmitPlayersConnected(roomId, roomData)) =>
      ghost var order;
      threw, order := RunEmitPlayersConnected(io, roomId, roomData);
      assert rm.View() == old(rm.View());
    case Some(DeclareWinner(roomId)) =>
      RunDeclareWinner(io, rm, roomId);
  }
}
