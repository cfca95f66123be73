/** The part of Socket.IO the server relies on: the set of connected
    sockets, named broadcast groups, and the messages handed to the
    transport, in the order they were emitted. Delivery itself is not
    modelled: the outbox records who each message was addressed to. */
module Transport {
  import opened Js
  import opened Constants

  /** A socket id. Socket.IO ids are never empty, so a stored id is truthy
      exactly when it is present. */
  type ConnId = s: string | s != "" witness "socket"

  /** A room id: the key in the room registry and the name of the group. */
  type RoomId = string

  /** The server-to-client events and their payloads. */
  datatype Event =
    | NotValidToken
    | RoomFull
    | PlayersConnected(roomId: RoomId, roomSize: nat, isPlayer1: bool,
                       player1Id: Option<ConnId>, player2Id: Option<ConnId>)
      /** "p1Choice" when `byPlayer1`, else "p2Choice" */
    | ChoiceMade(byPlayer1: bool, rpsValue: Choice, score: nat, p1Score: nat, p2Score: nat)
    | Winner(winner: WinnerType, p1Score: nat, p2Score: nat, p1Choice: Choice, p2Choice: Choice)
    | PlayAgain
    | OpponentLeft(message: GameMessage, roomId: RoomId)
    | Error(message: GameMessage)

  /** One emitted event and the sockets it was addressed to. */
  datatype Envelope = Envelope(recipients: set<ConnId>, event: Event)

  class Io {
    /** `io.sockets.sockets`: the connected sockets. */
    var live: set<ConnId>
    /** `io.sockets.adapter.rooms`: group name to members. */
    var groups: map<RoomId, set<ConnId>>
    /** Every event emitted so far, oldest first. */
    var outbox: seq<Envelope>

    /** Only connected sockets are members of a group. */
    ghost predicate Valid()
      reads this
    {
      forall id :: id in groups ==> groups[id] <= live
    }

    /** The members of group `id`; the adapter forgets empty groups, so an
        absent group and an empty one are the same. */
    function Members(id: RoomId): (m: set<ConnId>)
      reads this
      ensures Valid() ==> m <= live
    {
      if id in groups then groups[id] else {}
    }

    constructor ()
      ensures Valid()
      ensures live == {} && groups == map[] && outbox == []
    {
      live, groups, outbox := {}, map[], [];
    }

    /** A new socket connects. */
    method Connect(conn: ConnId)
      requires Valid()
      requires conn !in live
      modifies this
      ensures Valid()
      ensures live == old(live) + {conn}
      ensures groups == old(groups) && outbox == old(outbox)
    {
      live := live + {conn};
    }

    /** `socket.join(id)`. */
    method Join(conn: ConnId, id: RoomId)
      requires Valid()
      requires conn in live
      modifies this
      ensures Valid()
      ensures groups == old(groups)[id := old(Members(id)) + {conn}]
      ensures live == old(live) && outbox == old(outbox)
    {
      groups := groups[id := Members(id) + {conn}];
    }

    /** `socket.leave(id)`. */
    method Leave(conn: ConnId, id: RoomId)
      requires Valid()
      modifies this
      ensures Valid()
      ensures groups == old(groups)[id := old(Members(id)) - {conn}]
      ensures live == old(live) && outbox == old(outbox)
    {
      groups := groups[id := Members(id) - {conn}];
    }

    /** A socket goes away: Socket.IO removes it from the connected set and
        from every group before the server's "disconnect" handler runs. */
    method Drop(conn: ConnId)
      requires Valid()
      modifies this
      ensures Valid()
      ensures live == old(live) - {conn}
      ensures groups == map id | id in old(groups) :: old(groups)[id] - {conn}
      ensures forall id :: Members(id) == old(Members(id)) - {conn}
      ensures outbox == old(outbox)
    {
      live := live - {conn};
      groups := map id | id in groups :: groups[id] - {conn};
    }

    /** `socket.emit(event)`: to the socket itself. */
    method SendTo(conn: ConnId, e: Event)
      modifies this
      ensures outbox == old(outbox) + [Envelope({conn}, e)]
      ensures live == old(live) && groups == old(groups)
    {
      outbox := outbox + [Envelope({conn}, e)];
    }

    /** `socket.to(id).emit(event)`: to every member of the group except
        the sender. */
    method BroadcastFrom(sender: ConnId, id: RoomId, e: Event)
      modifies this
      ensures outbox == old(outbox) + [Envelope(old(Members(id)) - {sender}, e)]
      ensures live == old(live) && groups == old(groups)
    {
      outbox := outbox + [Envelope(Members(id) - {sender}, e)];
    }

    /** `io.to(id).emit(event)`: to every member of the group. */
    method BroadcastTo(id: RoomId, e: Event)
      modifies this
      ensures outbox == old(outbox) + [Envelope(old(Members(id)), e)]
      ensures live == old(live) && groups == old(groups)
    {
      outbox := outbox + [Envelope(Members(id), e)];
    }
  }
}
