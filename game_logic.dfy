/** The outcome resolver of server/game/gameLogic.js. */
module GameLogic {
  import opened Constants

  /** The beats-relation, stated independently of `DetermineWinner`:
      rock beats scissors, paper beats rock, scissors beats paper. */
  predicate Beats(a: Choice, b: Choice)
  {
    (a == Rock && b == Scissors) || (a == Paper && b == Rock) || (a == Scissors && b == Paper)
  }

  /** `determineWinner` on the raw strings it receives. Equal strings are a
      draw and a first argument that is not a move falls through to a draw.
      Between two moves the one that beats the other wins. A second argument
      that is not a move beats "rock" and loses to "paper" and "scissors",
      because each branch tests for one opponent only. */
  function DetermineWinner(p1Choice: string, p2Choice: string): (w: WinnerType)
    ensures w == Draw <==> p1Choice == p2Choice || p1Choice !in CHOICES
    ensures p2Choice in CHOICES ==>
      (w == Player1 <==> exists a, b :: p1Choice == Name(a) && p2Choice == Name(b) && Beats(a, b))
    ensures p1Choice in CHOICES && p2Choice !in CHOICES ==>
      w == if p1Choice == "rock" then Player2 else Player1
  {
    if p1Choice == p2Choice then Draw
    else if p1Choice == "rock" then
      (if p2Choice == "scissors" then assert Beats(Rock, Scissors); Player1 else Player2)
    else if p1Choice == "paper" then
      (if p2Choice == "scissors" then Player2 else assert Name(Rock) == "rock" && Beats(Paper, Rock); Player1)
    else if p1Choice == "scissors" then
      (if p2Choice == "rock" then Player2 else assert Name(Paper) == "paper" && Beats(Scissors, Paper); Player1)
    else Draw
  }

  /** On two moves the resolver follows the beats-relation exactly. */
  lemma ResolvesByBeats(a: Choice, b: Choice)
    ensures DetermineWinner(Name(a), Name(b)) ==
      if a == b then Draw else if Beats(a, b) then Player1 else Player2
  {
    ChoicesAreTheMoveNames();
  }

  /** Swapping two distinct moves swaps the winner. */
  lemma Antisymmetric(a: Choice, b: Choice)
    requires a != b
    ensures DetermineWinner(Name(a), Name(b)) == Player1 <==> DetermineWinner(Name(b), Name(a)) == Player2
    ensures DetermineWinner(Name(a), Name(b)) != Draw
  {
    ResolvesByBeats(a, b);
    ResolvesByBeats(b, a);
  }

  /** The nine pairs of moves. */
  const ALL_PAIRS: set<(Choice, Choice)> :=
    {(Rock, Rock), (Rock, Paper), (Rock, Scissors),
     (Paper, Rock), (Paper, Paper), (Paper, Scissors),
     (Scissors, Rock), (Scissors, Paper), (Scissors, Scissors)}

  /** The pairs of moves whose result is `w`. */
  function PairsWith(w: WinnerType): set<(Choice, Choice)>
  {
    set p | p in ALL_PAIRS && DetermineWinner(Name(p.0), Name(p.1)) == w
  }

  /** The result of every one of the nine pairs. */
  lemma PairsWithAre()
    ensures PairsWith(Draw) == {(Rock, Rock), (Paper, Paper), (Scissors, Scissors)}
    ensures PairsWith(Player1) == {(Rock, Scissors), (Paper, Rock), (Scissors, Paper)}
    ensures PairsWith(Player2) == {(Scissors, Rock), (Rock, Paper), (Paper, Scissors)}
  {
    forall p | p in ALL_PAIRS
      ensures DetermineWinner(Name(p.0), Name(p.1)) == if p.0 == p.1 then Draw else if Beats(p.0, p.1) then Player1 else Player2
    {
      ResolvesByBeats(p.0, p.1);
    }
  }

  /** Over the nine pairs of moves: three draws, three wins for each side,
      and no other result. */
  lemma OutcomeCounts()
    ensures |PairsWith(Draw)| == 3
    ensures |PairsWith(Player1)| == 3 && |PairsWith(Player2)| == 3
    ensures PairsWith(Draw) + PairsWith(Player1) + PairsWith(Player2) == ALL_PAIRS
  {
    PairsWithAre();
    CardinalityOfThree((Rock, Rock), (Paper, Paper), (Scissors, Scissors));
    CardinalityOfThree((Rock, Scissors), (Paper, Rock), (Scissors, Paper));
    CardinalityOfThree((Scissors, Rock), (Rock, Paper), (Paper, Scissors));
  }

  lemma CardinalityOfThree<T>(x: T, y: T, z: T)
    requires x != y && y != z && x != z
    ensures |{x, y, z}| == 3
  {
  }

  /** A first argument outside the three moves is always a draw, whatever
      the second argument. */
  lemma UnknownFirstChoiceIsDraw(p1Choice: string, p2Choice: string)
    requires p1Choice !in CHOICES
    ensures DetermineWinner(p1Choice, p2Choice) == Draw
  {
  }
}
