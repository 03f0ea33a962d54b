/**
 The match state machine of the game view: the two scores, the match-over and
 popup flags, the last two choices and the message line. `Step` is one round
 (the click handler, the score update and the score-threshold effect that runs
 after it); `Game` is the view's state, updated field by field: its round and
 reset methods are proved to follow `Step` and `Initial`, and the branch and
 effect methods it calls to follow their own contracts and `MatchEnd`.
 */
module Match {
  import opened Rules

  datatype Option<T> = None | Some(value: T)

  /** The message line, without its wording and colour. */
  datatype Message =
    | Prompt                         // the greeting shown before any round
    | DrawMessage
    | YouWin(user: Move, comp: Move)
    | YouLose(user: Move, comp: Move)
    | Champion                       // the user reached the winning score
    | ComputerWinsMatch              // the computer reached the winning score

  /** The score at which a match ends. */
  const WinningScore := 5

  datatype MatchState = MatchState(
    userScore: int,
    compScore: int,
    gameOver: bool,
    showPopup: bool,
    userLast: Option<Move>,
    compLast: Option<Move>,
    message: Message)

  /** One user click together with the computer's move drawn for it. */
  datatype Round = Round(user: Move, comp: Move)

  /** The message a round that does not end the match leaves behind. */
  function RoundMessage(user: Move, comp: Move): Message
  {
    match RoundOutcome(user, comp)
    case Draw => DrawMessage
    case UserWins => YouWin(user, comp)
    case CompWins => YouLose(user, comp)
  }

  /** The message of a finished match, chosen on whether the user has the winning score. */
  function FinalMessage(userScore: int): Message
  {
    if userScore == WinningScore then Champion else ComputerWinsMatch
  }

  /** What holds of the state between any two user actions. */
  predicate Inv(s: MatchState)
  {
    && 0 <= s.userScore <= WinningScore
    && 0 <= s.compScore <= WinningScore
    && !(s.userScore == WinningScore && s.compScore == WinningScore)
    && (s.gameOver <==> s.userScore == WinningScore || s.compScore == WinningScore)
    && s.showPopup == s.gameOver
    && (s.userLast.None? <==> s.compLast.None?)
    && (s.userLast.None? ==> s.userScore == 0 && s.compScore == 0 && s.message == Prompt)
    && (s.gameOver ==> s.message == FinalMessage(s.userScore))
    && (!s.gameOver && s.userLast.Some? && s.compLast.Some? ==>
          s.message == RoundMessage(s.userLast.value, s.compLast.value))
  }

  /** The state the view starts in, and the state a reset restores. */
  function Initial(): (s: MatchState)
    ensures Inv(s) && !s.gameOver
    ensures s.userScore == 0 && s.compScore == 0 && !s.showPopup
  {
    MatchState(0, 0, false, false, None, None, Prompt)
  }

  /** The draw branch and the winner branch of a round: the message, and one
      score up by one when the moves differ. */
  function Resolve(s: MatchState, user: Move, comp: Move): (t: MatchState)
    ensures t.userScore == s.userScore + (if Beats(user, comp) then 1 else 0)
    ensures t.compScore == s.compScore + (if Beats(comp, user) then 1 else 0)
    ensures t.message == RoundMessage(user, comp)
    ensures t.(userScore := s.userScore, compScore := s.compScore, message := s.message) == s
  {
    if user == comp then s.(message := DrawMessage)
    else if UserWin(user, comp) then s.(userScore := s.userScore + 1, message := YouWin(user, comp))
    else s.(compScore := s.compScore + 1, message := YouLose(user, comp))
  }

  /** The score-threshold effect: once a score is at the winning score the
      match is over, the popup is shown and the final message is chosen. */
  function MatchEnd(s: MatchState): (t: MatchState)
    ensures t.gameOver <==> s.gameOver || s.userScore == WinningScore || s.compScore == WinningScore
    ensures t.userScore == s.userScore && t.compScore == s.compScore
    ensures t.userLast == s.userLast && t.compLast == s.compLast
    ensures (s.userScore == WinningScore || s.compScore == WinningScore) ==>
      t.showPopup && t.message == FinalMessage(s.userScore)
    ensures s.userScore != WinningScore && s.compScore != WinningScore ==> t == s
  {
    if s.userScore == WinningScore || s.compScore == WinningScore then
      s.(message := FinalMessage(s.userScore), gameOver := true, showPopup := true)
    else s
  }

  /** One round: rejected once the match is over; otherwise the choices are
      recorded, the round is resolved and, when a score changed, the
      threshold effect runs. */
  function Step(s: MatchState, user: Move, comp: Move): (t: MatchState)
    ensures s.gameOver ==> t == s
    ensures !s.gameOver ==> t.userLast == Some(user) && t.compLast == Some(comp)
    ensures !s.gameOver ==> t.userScore == s.userScore + (if Beats(user, comp) then 1 else 0)
    ensures !s.gameOver ==> t.compScore == s.compScore + (if Beats(comp, user) then 1 else 0)
    ensures Inv(s) ==> Inv(t)
  {
    if s.gameOver then s
    else
      var r := Resolve(s.(userLast := Some(user), compLast := Some(comp)), user, comp);
      if r.userScore != s.userScore || r.compScore != s.compScore then MatchEnd(r) else r
  }

  /** From a reachable state, a round ends the match exactly when it brings a
      score from one below the winning score up to it. */
  lemma ConcludesExactlyAtWinningScore(s: MatchState, user: Move, comp: Move)
    requires Inv(s) && !s.gameOver
    ensures var t := Step(s, user, comp);
      t.gameOver <==>
        (s.userScore == WinningScore - 1 && Beats(user, comp)) ||
        (s.compScore == WinningScore - 1 && Beats(comp, user))
    ensures var t := Step(s, user, comp);
      t.gameOver ==> t.showPopup && (t.message == Champion <==> t.userScore == WinningScore)
  {
  }

  /** The state after a sequence of rounds. */
  function Play(s: MatchState, rounds: seq<Round>): MatchState
    decreases |rounds|
  {
    if rounds == [] then s
    else Play(Step(s, rounds[0].user, rounds[0].comp), rounds[1..])
  }

  /** The outcomes of the rounds of a sequence that were not rejected, in order. */
  function Outcomes(s: MatchState, rounds: seq<Round>): seq<Outcome>
    decreases |rounds|
  {
    if rounds == [] then []
    else
      var rest := Outcomes(Step(s, rounds[0].user, rounds[0].comp), rounds[1..]);
      if s.gameOver then rest else [RoundOutcome(rounds[0].user, rounds[0].comp)] + rest
  }

  function Count(os: seq<Outcome>, o: Outcome): nat
  {
    if os == [] then 0 else (if os[0] == o then 1 else 0) + Count(os[1..], o)
  }

  /** Every sequence of rounds keeps the invariant. */
  lemma {:induction false} PlayKeepsInv(s: MatchState, rounds: seq<Round>)
    requires Inv(s)
    ensures Inv(Play(s, rounds))
    decreases |rounds|
  {
    if rounds != [] {
      PlayKeepsInv(Step(s, rounds[0].user, rounds[0].comp), rounds[1..]);
    }
  }

  /** Once the match is over, no round changes anything until a reset. */
  lemma {:induction false} OverIsFrozen(s: MatchState, rounds: seq<Round>)
    requires s.gameOver
    ensures Play(s, rounds) == s
    ensures Outcomes(s, rounds) == []
    decreases |rounds|
  {
    if rounds != [] {
      OverIsFrozen(s, rounds[1..]);
    }
  }

  /** Each score goes up by exactly the number of accepted rounds its side won. */
  lemma {:induction false} ScoresTallyOutcomes(s: MatchState, rounds: seq<Round>)
    ensures Play(s, rounds).userScore == s.userScore + Count(Outcomes(s, rounds), UserWins)
    ensures Play(s, rounds).compScore == s.compScore + Count(Outcomes(s, rounds), CompWins)
    decreases |rounds|
  {
    if rounds != [] {
      var r := rounds[0];
      var next := Step(s, r.user, r.comp);
      ScoresTallyOutcomes(next, rounds[1..]);
      var rest := Outcomes(next, rounds[1..]);
      if !s.gameOver {
        assert Outcomes(s, rounds) == [RoundOutcome(r.user, r.comp)] + rest;
        assert ([RoundOutcome(r.user, r.comp)] + rest)[1..] == rest;
      }
    }
  }

  /** Every outcome is a user win, a computer win or a draw. */
  lemma {:induction false} CountPartition(os: seq<Outcome>)
    ensures Count(os, UserWins) + Count(os, CompWins) + Count(os, Draw) == |os|
  {
    if os != [] {
      CountPartition(os[1..]);
    }
  }

  /** While the match is still open at the end, no round of the sequence was rejected. */
  lemma {:induction false} OpenMatchAcceptsEveryRound(s: MatchState, rounds: seq<Round>)
    requires !Play(s, rounds).gameOver
    ensures |Outcomes(s, rounds)| == |rounds|
    decreases |rounds|
  {
    if rounds != [] {
      if s.gameOver {
        OverIsFrozen(s, rounds);
        assert false;
      }
      OpenMatchAcceptsEveryRound(Step(s, rounds[0].user, rounds[0].comp), rounds[1..]);
    }
  }

  /** From the start of a match: the scores stay within the winning score, the
      two scores and the draws add up to the number of accepted rounds (all of
      them while the match is open), and a match has at most nine decisive rounds. */
  lemma RoundsAddUp(rounds: seq<Round>)
    ensures var t := Play(Initial(), rounds);
      var os := Outcomes(Initial(), rounds);
      && Inv(t)
      && t.userScore + t.compScore + Count(os, Draw) == |os|
      && (!t.gameOver ==> |os| == |rounds|)
      && Count(os, UserWins) + Count(os, CompWins) <= 2 * WinningScore - 1
  {
    var t := Play(Initial(), rounds);
    var os := Outcomes(Initial(), rounds);
    PlayKeepsInv(Initial(), rounds);
    ScoresTallyOutcomes(Initial(), rounds);
    CountPartition(os);
    if !t.gameOver {
      OpenMatchAcceptsEveryRound(Initial(), rounds);
    }
  }

  /** Five rounds of rock against scissors win the match for the user. */
  lemma FiveRockWinsMatch()
    ensures var r := Round(Rock, Scissors);
      var rounds := [r, r, r, r, r];
      && Play(Initial(), rounds) == MatchState(5, 0, true, true, Some(Rock), Some(Scissors), Champion)
      && Outcomes(Initial(), rounds) == [UserWins, UserWins, UserWins, UserWins, UserWins]
  {
    var r := Round(Rock, Scissors);
    var rounds := [r, r, r, r, r];
    var s1 := Step(Initial(), Rock, Scissors);
    var s2 := Step(s1, Rock, Scissors);
    var s3 := Step(s2, Rock, Scissors);
    var s4 := Step(s3, Rock, Scissors);
    var s5 := Step(s4, Rock, Scissors);
    assert s4 == MatchState(4, 0, false, false, Some(Rock), Some(Scissors), YouWin(Rock, Scissors));
    assert s5 == MatchState(5, 0, true, true, Some(Rock), Some(Scissors), Champion);
    var w := UserWins;
    assert [r][1..] == [];
    assert Play(s4, [r]) == s5 && Outcomes(s4, [r]) == [w];
    assert [r, r][1..] == [r];
    assert Play(s3, [r, r]) == s5 && Outcomes(s3, [r, r]) == [w, w];
    assert [r, r, r][1..] == [r, r];
    assert Play(s2, [r, r, r]) == s5 && Outcomes(s2, [r, r, r]) == [w, w, w];
    assert [r, r, r, r][1..] == [r, r, r];
    assert Play(s1, [r, r, r, r]) == s5 && Outcomes(s1, [r, r, r, r]) == [w, w, w, w];
    assert rounds[1..] == [r, r, r, r];
  }

  /** The view's state, updated in place as the game's handlers do. */
  class Game {
    var userScore: int
    var compScore: int
    var gameOver: bool
    var showPopup: bool
    var userLast: Option<Move>
    var compLast: Option<Move>
    var message: Message

    function State(): MatchState
      reads this
    {
      MatchState(userScore, compScore, gameOver, showPopup, userLast, compLast, message)
    }

    ghost predicate Valid()
      reads this
    {
      Inv(State())
    }

    constructor ()
      ensures Valid() && State() == Initial()
    {
      userScore, compScore := 0, 0;
      gameOver, showPopup := false, false;
      userLast, compLast := None, None;
      message := Prompt;
    }

    /** The draw branch: only the message changes. */
    method DrawGame()
      modifies this`message
      ensures message == DrawMessage
    {
      message := DrawMessage;
    }

    /** The winner branch: the winner's score goes up by one and the message names the winner. */
    method ShowWinner(userWin: bool, userChoice: Move, compChoice: Move)
      modifies this`userScore, this`compScore, this`message
      ensures userWin ==> userScore == old(userScore) + 1 && compScore == old(compScore)
      ensures !userWin ==> compScore == old(compScore) + 1 && userScore == old(userScore)
      ensures message == if userWin then YouWin(userChoice, compChoice) else YouLose(userChoice, compChoice)
    {
      if userWin {
        userScore := userScore + 1;
        message := YouWin(userChoice, compChoice);
      } else {
        compScore := compScore + 1;
        message := YouLose(userChoice, compChoice);
      }
    }

    /** The effect that runs after the scores change. */
    method MatchEndEffect()
      modifies this`message, this`gameOver, this`showPopup
      ensures State() == MatchEnd(old(State()))
    {
      if userScore == WinningScore || compScore == WinningScore {
        message := FinalMessage(userScore);
        gameOver := true;
        showPopup := true;
      }
    }

    /** A click on a move, against the computer's move `compMove`. */
    method PlayRound(userMove: Move, compMove: Move)
      requires Valid()
      modifies this
      ensures Valid()
      ensures State() == Step(old(State()), userMove, compMove)
      ensures old(gameOver) ==> State() == old(State())
    {
      if gameOver {
        return;
      }
      var userBefore, compBefore := userScore, compScore;
      userLast := Some(userMove);
      compLast := Some(compMove);
      if userMove == compMove {
        DrawGame();
      } else {
        ShowWinner(UserWin(userMove, compMove), userMove, compMove);
      }
      // the effect depends on the two scores, so a draw does not run it
      if userScore != userBefore || compScore != compBefore {
        MatchEndEffect();
      }
    }

    /** The "Play Again" button: back to the start state from any state. */
    method Reset()
      modifies this
      ensures Valid() && State() == Initial()
    {
      var userBefore, compBefore := userScore, compScore;
      userScore := 0;
      compScore := 0;
      message := Prompt;
      userLast := None;
      compLast := None;
      gameOver := false;
      showPopup := false;
      // the scores may have changed, so the effect runs, and finds no winner
      if userScore != userBefore || compScore != compBefore {
        MatchEndEffect();
      }
    }
  }
}
