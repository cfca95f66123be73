/** The enumerations of config/constants.js, as datatypes. */
module Constants {

  /** A move; `CHOICES` lists their wire names in source order. */
  datatype Choice = Rock | Paper | Scissors

  function Name(c: Choice): string
  {
    match c
    case Rock => "rock"
    case Paper => "paper"
    case Scissors => "scissors"
  }

  const CHOICES: seq<string> := ["rock", "paper", "scissors"]

  /** Every move, in the order of `CHOICES`. */
  const ALL_CHOICES: seq<Choice> := [Rock, Paper, Scissors]

  /** `WINNER_TYPES`: "draw", "p1", "p2". */
  datatype WinnerType = Draw | Player1 | Player2

  /** `ROOM_STATUS`: "waiting", "playing". */
  datatype RoomStatus = Waiting | Playing

  /** `GAME_MESSAGES`, kept as tags rather than their (Vietnamese) texts. */
  datatype GameMessage =
    | OpponentLeftMessage
    | InvalidChoice
    | RoomNotFound
    | NeedTwoPlayers
    | NotPlayer1
    | NotPlayer2
    | OpponentNotInRoom
    | AlreadyChosen

  /** The wire names are exactly the names of the three moves, and distinct. */
  lemma ChoicesAreTheMoveNames()
    ensures |CHOICES| == |ALL_CHOICES|
    ensures forall i :: 0 <= i < |CHOICES| ==> CHOICES[i] == Name(ALL_CHOICES[i])
    ensures forall s :: s in CHOICES <==> exists c :: Name(c) == s
    ensures forall a, b :: Name(a) == Name(b) ==> a == b
  {
    forall s | s in CHOICES ensures exists c :: Name(c) == s {
      if s == "rock" { assert Name(Rock) == s; }
      else if s == "paper" { assert Name(Paper) == s; }
      else { assert Name(Scissors) == s; }
    }
  }
}
