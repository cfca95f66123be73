# Rock-paper-scissors room server, in Dafny

This is a model of the server side of a two-player rock-paper-scissors game that runs over Socket.IO. Its four layers are:

- **The outcome resolver** `determineWinner` (module `GameLogic`). It is a pure function of the two submitted strings, related to an independent beats-relation `Beats`.
- **The input validators** `isValidChoice` and `isValidRoomID` (module `Validation`). ECMAScript `String.prototype.trim` is modelled explicitly.
- **The room registry** `RoomManager` (module `Rooms`).
  - Each room is a `Room` object whose seven fields are updated in place.
  - The registry holds a `map` from room id to room object.
  - Every method is proved against a pure transition on the room value `RoomData`: `NewRoom`, `AssignRole`, `Vacate`, `WithChoice`, `WithoutChoices` and `Scored`.
  - The handlers keep the invariant `WellFormed`. It says the roles are held by different sockets, moves exist only while both roles are held, and the status is "playing" exactly when both roles are held.
- **The session handlers** of `server/socket/handlers.js` (module `Handlers`). They run over:
  - the registry;
  - an abstract transport `Io`, in module `Transport`. It holds the connected sockets, the group members of each room and an append-only outbox of addressed events;
  - an `EventLoop`, the FIFO queue of callbacks deferred with `setImmediate`.

  Each handler states, branch by branch:
  - the new registry value;
  - the new group memberships;
  - the events it emits, in order;
  - the callbacks it queues.

  Every handler keeps every stored room `WellFormed`.

Module `Scenarios` describes whole sessions from a fresh server: a full round, a third joiner and an unknown room. It proves the events each of them emits.

## Model

| member | source | states |
|---|---|---|
| Constants.ChoicesAreTheMoveNames | config/constants.js:1-4 | the wire names of the moves are exactly "rock", "paper" and "scissors", distinct, in that order |
| GameLogic.DetermineWinner | server/game/gameLogic.js:9-26 | the result is a draw exactly when the strings are equal or the first is not a move. Against a move, player 1 wins exactly when its move beats the other under `Beats`. Against a non-move, player 1 loses with "rock" and wins otherwise |
| GameLogic.ResolvesByBeats | server/game/gameLogic.js:10-22 | on two moves: a draw when they are equal, otherwise player 1 exactly when its move beats the other's and player 2 otherwise |
| GameLogic.Antisymmetric | server/game/gameLogic.js:9-23 | for two distinct moves, swapping them swaps the winner, and the result is never a draw |
| GameLogic.PairsWithAre | server/game/gameLogic.js:14-22 | the set of move pairs giving each result: the three equal pairs draw, and rock/scissors, paper/rock and scissors/paper go to player 1 and their reversals to player 2 |
| GameLogic.OutcomeCounts | server/game/gameLogic.js:9-25 | of the nine pairs of moves, 3 are draws, 3 go to player 1 and 3 to player 2, and no other result occurs |
| GameLogic.UnknownFirstChoiceIsDraw | server/game/gameLogic.js:17-25 | a first argument that is not a move is a draw whatever the second argument |
| Validation.IsValidChoice | server/utils/validation.js:8-10 | true exactly for a string equal to the name of a move |
| Validation.ParseChoice | server/utils/validation.js:8-10 | gives a move exactly for the strings `IsValidChoice` accepts, and that move is named by the string |
| Validation.ParseName | server/utils/validation.js:9 | parsing the name of a move gives that move back |
| Validation.ExactNamesOnly | server/utils/validation.js:9 | the comparison is exact: "Rock", "ROCK", "", " rock", null and undefined are refused |
| Validation.TrimStart | server/utils/validation.js:18 | the result is a suffix of the input that does not start with white space, and what it drops is all white space |
| Validation.TrimEnd | server/utils/validation.js:18 | the result is a prefix of the input that does not end with white space, and what it drops is all white space |
| Validation.IsValidRoomId | server/utils/validation.js:17-19 | true exactly for a string that is not all white space, so false for non-strings, "" and blank strings |
| Validation.TrimIsEmptyIff | server/utils/validation.js:18 | trimming leaves nothing exactly when the string is all white space |
| Validation.PaddingIsTrimmed | server/utils/validation.js:18 | white space added around a string does not change its trimmed form |
| Validation.PaddingIsIgnored | server/utils/validation.js:17-19 | white space around a room id never changes whether it is valid |
| Validation.TrimIdempotent | server/utils/validation.js:18 | trimming twice is trimming once |
| Rooms.AssignRoleSlots | server/socket/roomManager.js:69-95 | the join transition. A stale room (group of one, a slot empty) restarts with the joiner as player 1. Otherwise a filled slot is never overwritten, player 1 is filled before player 2, the scores are kept and two filled roles keep the status. A group of two or more clears both moves and a smaller one keeps them |
| Rooms.ScoresOnlyGrow | server/socket/roomManager.js:163-171 | scoring adds exactly one point to the winner, none on a draw, and changes no other field |
| Rooms.NewRoomWellFormed | server/socket/roomManager.js:16-27 | a created room satisfies the invariant |
| Rooms.AssignRoleWellFormed | server/socket/roomManager.js:82-95 | a join that keeps the creator as player 1 and comes with a group of two or more keeps the invariant |
| Rooms.VacateWellFormed | server/socket/roomManager.js:113-127 | vacating either role of a room whose roles are distinct leaves a well-formed room |
| Rooms.VacateForgetsLeaver | server/socket/roomManager.js:113-127 | vacating the role the leaver holds leaves the leaver with no role. The other player keeps their role, both moves and both scores are cleared, and the room waits |
| Rooms.RoundStepsWellFormed | server/socket/roomManager.js:135-171 | recording a move while both roles are held, clearing the moves, and scoring all keep the invariant |
| Rooms.AllWellFormedKept | server/socket/roomManager.js:104-106 | storing a well-formed room under an id, or deleting an id, keeps every room well formed |
| Rooms.Room.constructor | server/socket/roomManager.js:17-25 | a new room object holds no moves, scores 0-0, the given first player, no second player and the given status |
| Rooms.RoomManager.constructor | server/socket/roomManager.js:7-9 | the registry starts empty |
| Rooms.RoomManager.CreateRoom | server/socket/roomManager.js:16-27 | a fresh waiting room with the creator as player 1 is stored under the id, replacing any earlier one. Every other room is unchanged |
| Rooms.RoomManager.GetRoom | server/socket/roomManager.js:34-36 | the stored room object, or none exactly when the id is absent |
| Rooms.RoomManager.RoomExists | server/socket/roomManager.js:43-45 | agrees with `GetRoom` |
| Rooms.RoomManager.GetAllRooms | server/socket/roomManager.js:177-179 | the registry's dictionary itself: it lists exactly the ids `RoomExists` accepts, and maps each of them to the room object `GetRoom` returns |
| Rooms.RoomManager.JoinRoom | server/socket/roomManager.js:54-98 | an absent id gets a new "playing" room with the joiner as player 1. A stored room becomes `AssignRole` of its old value, as a new object when it was stale and in place otherwise. No other room changes |
| Rooms.RoomManager.AssignSlot | server/socket/roomManager.js:82-97 | the stored object is updated in place to `Filled` of its value, and nothing else changes |
| Rooms.RoomManager.DeleteRoom | server/socket/roomManager.js:104-106 | only that id is removed |
| Rooms.RoomManager.ResetRoomOnPlayerLeave | server/socket/roomManager.js:113-127 | nothing happens for an absent id. Otherwise the room becomes `Vacate` of its value and no other room changes |
| Rooms.RoomManager.SetChoice | server/socket/roomManager.js:135-145 | returns false and changes nothing for an absent id. Otherwise it returns true, only the named slot takes the move, and no other room changes |
| Rooms.RoomManager.ResetChoices | server/socket/roomManager.js:151-156 | both moves of a stored room are cleared, and nothing else changes |
| Rooms.RoomManager.UpdateScore | server/socket/roomManager.js:163-171 | a stored room becomes `Scored` of its value, and nothing else changes |
| Transport.Io.Connect | server/socket/handlers.js:11 | a new socket joins the connected set |
| Transport.Io.Join | server/socket/handlers.js:136-144 | the socket is added to the room's group, and nothing else changes |
| Transport.Io.Leave | server/socket/handlers.js:318 | the socket is removed from the room's group, and nothing else changes |
| Transport.Io.Drop | server/socket/handlers.js:15-17 | before the disconnect handler runs, the socket leaves the connected set and every group |
| Transport.Io.SendTo | server/socket/handlers.js:211-254 | one event addressed to one socket is appended to the outbox |
| Transport.Io.BroadcastFrom | server/socket/handlers.js:264-269 | one event addressed to the group minus the sender is appended |
| Transport.Io.BroadcastTo | server/socket/handlers.js:356-362 | one event addressed to the whole group is appended |
| Handlers.EventLoop.SetImmediate | server/socket/handlers.js:171-173 | the callback is queued last |
| Handlers.EventLoop.Next | server/socket/handlers.js:171-173 | the oldest queued callback is taken off the queue, if there is one |
| Handlers.CheckChoice | server/socket/handlers.js:209-255 | the checks run in the source's order, and the first that fails decides the error. A missing room id or a value that is not a move gives "invalid choice" (before the room is considered). Then an unknown room gives "room not found", a group under two "need two players", a sender not holding the claimed role that role's error, an empty opponent role "opponent not in room", and a filled claimed slot "already chosen". The move is accepted exactly when every check passes, and it is the one named |
| Handlers.ImpostorRefused | server/socket/handlers.js:235-241 | a claim for a role the sender does not hold is refused with that role's error |
| Handlers.SecondMoveRefused | server/socket/handlers.js:250-255 | once a move is recorded, any further valid move by the same player is refused with "already chosen" |
| Handlers.HandlePlayerChoice | server/socket/handlers.js:209-293 | a refused move sends one error to the sender only and changes nothing else. An accepted move is recorded with `WithChoice`. It is then sent to the group minus the sender with the scores, the opponent's earlier move is echoed to the sender, and the outcome is queued exactly when both moves are in |
| Handlers.RecordMove | server/socket/handlers.js:257-292 | the accepted path: the recorded move, then the events and the queued outcome |
| Handlers.AnnounceMove | server/socket/handlers.js:262-292 | the broadcast, the echo and the queued outcome that follow a recorded move |
| Handlers.RunDeclareWinner | server/socket/handlers.js:343-365 | with a stored room and both moves in, the round is scored by `DetermineWinner`. Then the whole group gets the result, the new scores and both moves. Otherwise nothing happens |
| Handlers.AnnouncedOutcome | server/socket/handlers.js:350-362 | the announced result is a draw exactly for equal moves, and otherwise names the player whose move beats the other's |
| Handlers.HandlePlayAgain | server/socket/handlers.js:298-309 | the moves of a stored room are cleared, and "playAgain" goes to the whole group in every case |
| Handlers.HandleCreateRoom | server/socket/handlers.js:93-99 | a waiting room with the sender as player 1 is stored under the id as given, replacing any earlier one. No group changes and no reply is sent |
| Handlers.HandleExitGame | server/socket/handlers.js:314-338 | the sender leaves the group. For a stored room, the role the payload names is vacated and the rest of the group gets "opponentLeft". The room is deleted when its group is empty |
| Handlers.VacateAfterExit | server/socket/handlers.js:320-337 | the vacate, the notice and the delete of the exit handler |
| Handlers.NotifyThenDeleteIfEmpty | server/socket/handlers.js:325-336 | the rest of the group is told, then the room is deleted if the group is empty |
| Handlers.FirstRoomOf | server/socket/handlers.js:61-62 | the first position, in the listing order, of a room where the socket holds a role, or none when it holds no role |
| Handlers.LeaveRoomOf | server/socket/handlers.js:62-85 | the leaver's role is vacated and the rest of the group gets "opponentLeft". When nobody is left, the room is deleted instead |
| Handlers.NotifyOrDelete | server/socket/handlers.js:68-84 | with members left they are told, and otherwise the room is deleted |
| Handlers.HandleDisconnect | server/socket/handlers.js:56-88 | the socket leaves the connected set and every group. Only the first room, in listing order, where it holds a role is affected (`Departed`) |
| Handlers.LeaveFirstRoom | server/socket/handlers.js:59-87 | the scan with its early exit: rooms before the first match are untouched, and only that room changes |
| Handlers.DepartureFreesSender | server/socket/handlers.js:59-87 | after a departure the socket holds no role in the room it left, or that room is gone. If no room matched, it held no role anywhere. No other room changes and all rooms stay well formed |
| Handlers.PairedMeansTwo | server/socket/handlers.js:143-160 | an admitted joiner always makes a group of exactly two with the creator, so the registry's stale-room reset is never reached from a join |
| Handlers.HandleJoinRoom | server/socket/handlers.js:104-177 | the effect of each outcome. An unknown room or a departed creator gets "notValidToken" to the sender only, with nothing else changed. The creator's own request is ignored. A group over two puts the creator in, takes the joiner back out and sends "roomFull", with the registry unchanged. Otherwise both join, the joiner takes a role by `AssignRole`, and the announcement is queued |
| Handlers.AdmitOrRefuse | server/socket/handlers.js:128-176 | the part of the join after the creator is known to be connected |
| Handlers.JoinPair | server/socket/handlers.js:130-144 | the group becomes the old group plus the creator and the joiner |
| Handlers.RefuseFull | server/socket/handlers.js:153-156 | the joiner leaves the group again and gets "roomFull" |
| Handlers.JoinAndAnnounce | server/socket/handlers.js:159-176 | the joiner takes a role by `AssignRole` in place, and the announcement of the pair is queued with the room object |
| Handlers.AnnouncementsTellRoles | server/socket/handlers.js:188-202 | each member gets exactly one "playersConnected", addressed to it alone, and is told it is player 1 exactly when it holds that role. At most one of them is told so |
| Handlers.RunEmitPlayersConnected | server/socket/handlers.js:182-204 | every member of the group, each once, gets its own announcement built from the room object as it is then. On an empty group the handler throws and sends nothing |
| Handlers.RunImmediate | server/socket/handlers.js:289 | the oldest queued callback is run, and the handler reports exactly when that callback throws |
| Scenarios.OneRound | server/socket/handlers.js:93-365 | A creates, B joins, and each is told its own role. Rock (player 1) against scissors (player 2) ends with the outcome sent to both: player 1 wins, 1-0 |
| Scenarios.ThirdJoinerRefused | server/socket/handlers.js:143-157 | a third socket joining a paired room gets "roomFull" and the group stays the pair |
| Scenarios.UnknownRoomRefused | server/socket/handlers.js:108-114 | joining a room nobody created gets "notValidToken" |

## Left out

- Logging (`console.log`) is left out, and so are the wiring in `setupSocketHandlers` and server start-up. Delivery of events is not modelled either: the outbox records each event and its recipients, in order.
- Socket.IO internals are not modelled. The adapter's group sets, `socket.rooms` and the sockets map are one membership map plus a set of connected ids. Only connected sockets are members, so the "socket still connected" test in `emitPlayersConnected` always passes.
- Timing is not modelled. `setImmediate` is a FIFO queue that the caller runs with `RunImmediate`. Other events may interleave between queuing and running, and the model allows any order the caller chooses.
- Room ids are strings. Non-string ids, and ids that collide with the dictionary's prototype keys, are not modelled: both need JavaScript key coercion.
- `isValidRoomID` returns its operand when that is falsy. The model returns `false`, which is the same truth value.
- Strings are sequences of Unicode scalar values, not of UTF-16 code units: a character outside the Basic Multilingual Plane is one `char` here and two code units in JavaScript, and lone surrogates cannot be written. Neither `trim` nor the `length > 0` test of `isValidRoomID` depends on the difference, since every white-space character is in the Basic Multilingual Plane.
- `Handlers.HandlePlayAgain`: a missing payload object, which throws in the source, is not modelled. The room id is taken as given.
- `Handlers.HandleExitGame`: a missing payload object, which throws in the source, is not modelled. The room id and the `player` value are taken as given.
- `Handlers.RunEmitPlayersConnected`: the thrown TypeError is reported as `threw`. The process-level consequence of an uncaught error in a deferred callback is not modelled.
- `Handlers.RunImmediate`: its contract states only the queue, whether the task threw, and the invariant. The effect of each task is the contract of `RunEmitPlayersConnected` or `RunDeclareWinner`, which it calls.
- `Handlers.RunEmitPlayersConnected`: the order in which `Array.from` lists the members is returned as a ghost sequence, not derived from insertion order.
- `Handlers.HandleDisconnect`: the order in which `Object.entries` lists the stored rooms is a parameter.
- `Handlers.HandleCreateRoom`: as in the code, it does not call `isValidRoomID` on the id and sends no `roomCreated` reply, so any id is stored as given and the creator hears nothing.
- `Handlers.HandleExitGame`: it trusts the payload's `player` flag to decide which role to vacate, as the code does.
- The human-readable texts of `GAME_MESSAGES` are kept as tags, not strings.
- The client (`public/`) and `server.js` are not part of this model.
