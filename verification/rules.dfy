/**
 The round-resolution rule of the game: the three moves, the outcome of one
 round, and the computer's choice of move from a random index.
 */
module Rules {

  datatype Move = Rock | Paper | Scissors

  datatype Outcome = UserWins | CompWins | Draw

  /** The fixed beats-relation: rock beats scissors, scissors beats paper,
      paper beats rock. It is the reference the decision below is checked against. */
  predicate Beats(a: Move, b: Move)
  {
    (a == Rock && b == Scissors) || (a == Scissors && b == Paper) || (a == Paper && b == Rock)
  }

  /** The options list of the computer's choice, in the order the game lists them. */
  const Options: seq<Move> := [Rock, Paper, Scissors]

  /** The computer's move, given the index `floor(random * 3)` the game draws;
      the random number itself is left to the caller. */
  function ComputerChoice(index: int): (m: Move)
    requires 0 <= index < 3
    ensures index == 0 <==> m == Rock
    ensures index == 1 <==> m == Paper
    ensures index == 2 <==> m == Scissors
  {
    Options[index]
  }

  /** Every move is the computer's choice for exactly one index, so a uniform
      index gives a uniform move. */
  lemma ComputerChoiceCoversMoves(m: Move)
    ensures exists i :: 0 <= i < 3 && ComputerChoice(i) == m
    ensures forall i, j :: 0 <= i < 3 && 0 <= j < 3 && ComputerChoice(i) == m && ComputerChoice(j) == m ==> i == j
  {
    var i := match m case Rock => 0 case Paper => 1 case Scissors => 2;
    assert ComputerChoice(i) == m;
  }

  /** The win decision of a round whose two moves differ: rock loses only to
      paper, paper only to scissors, scissors only to rock. It gives true for
      equal moves, which the round never asks it about. */
  function UserWin(user: Move, comp: Move): (w: bool)
    ensures w <==> !Beats(comp, user)
    ensures user != comp ==> (w <==> Beats(user, comp))
  {
    if user == Rock then comp != Paper
    else if user == Paper then comp != Scissors
    else comp != Rock
  }

  /** The outcome of one round: equal moves draw, otherwise the win decision. */
  function RoundOutcome(user: Move, comp: Move): (r: Outcome)
    ensures r == Draw <==> user == comp
    ensures r == UserWins <==> Beats(user, comp)
    ensures r == CompWins <==> Beats(comp, user)
  {
    if user == comp then Draw
    else if UserWin(user, comp) then UserWins
    else CompWins
  }

  /** Exchanging the two moves exchanges who wins. */
  lemma OutcomeAntisymmetric(a: Move, b: Move)
    requires a != b
    ensures RoundOutcome(a, b) == UserWins <==> RoundOutcome(b, a) == CompWins
    ensures RoundOutcome(a, b) == CompWins <==> RoundOutcome(b, a) == UserWins
  {
  }
}
