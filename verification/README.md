# Rock-Paper-Scissors match model

A Dafny model of the game logic inside the single `App` view of a browser
rock-paper-scissors game. The user picks rock, paper or scissors. The computer
picks a move at random. Equal moves draw. Otherwise rock loses only to paper,
paper only to scissors and scissors only to rock. The winner's score goes up by
one. When either score reaches 5, the match is over: the popup opens, the final
message names the champion, and later clicks are ignored until "Play Again"
resets everything.

- `rules.dfy`, module `Rules`: the moves, the win decision `UserWin`, the round
  outcome `RoundOutcome`, the reference beats-relation `Beats` it is proved
  against, and `ComputerChoice`, the computer's move picked by an index in 0..2.
- `game.dfy`, module `Match`: the view state as a value (`MatchState`). It has
  the object invariant `Inv`, one round as `Step`, and a sequence of rounds as
  `Play`. It also holds the class `Game`. `Game` has the view's state fields
  `userScore`, `compScore`, `gameOver`, `showPopup`, `userLast`, `compLast` and
  `message`. Its methods update those fields the way the handlers do. The
  constructor and `Reset` are proved to give `Initial`, and `PlayRound` to give
  `Step` of the old state. `DrawGame` and `ShowWinner` are proved against their
  own contracts over the old and new fields, and `MatchEndEffect` to give
  `MatchEnd` of the old state.
- The helpers `RoundMessage` (the message a round leaves: draw, win or loss
  with both moves) and `FinalMessage` (the champion message exactly when the
  user has 5) choose messages; `Resolve` is the draw and winner branches as a
  function of the state.

The score-threshold effect runs after every render in which a score changed.
The model runs it as the last step of the same round, and only when a score
changed. So a draw round does not run it. A reset does run it, and there the
effect finds no winner.

After N rounds the two scores plus the draws make N only while the match is
open: once it is over, a click changes nothing and is not counted.
`RoundsAddUp` states this.

## Model

| member | source | states |
|---|---|---|
| `Rules.UserWin` | src/App.jsx:72-75 | the user wins unless the computer's move beats the user's; for different moves, the user wins exactly when the user's move beats the computer's |
| `Rules.RoundOutcome` | src/App.jsx:70-75 | a draw exactly when the moves are equal; the user wins exactly when the user's move beats the computer's, and loses exactly when the computer's beats the user's |
| `Rules.OutcomeAntisymmetric` | src/App.jsx:72-75 | for different moves a and b, the user wins with (a, b) exactly when the user loses with (b, a), and the reverse |
| `Rules.ComputerChoice` | src/App.jsx:27-30 | index 0, 1 and 2 give rock, paper and scissors |
| `Rules.ComputerChoiceCoversMoves` | src/App.jsx:28-29 | every move comes from exactly one index, so a uniform index gives a uniform move |
| `Match.Initial` | src/App.jsx:11-19 | the start state: both scores 0, not over, no popup; it satisfies the invariant |
| `Match.Resolve` | src/App.jsx:37-56 | each score goes up by one exactly when its side's move beats the other's, the message is the round's draw, win or loss message, and nothing else changes |
| `Match.MatchEnd` | src/App.jsx:80-87 | the match becomes over exactly when a score is at 5 (or it already was); then the popup is shown and the final message is the champion message exactly when the user has 5; a state with no score at 5 is returned unchanged; scores and last choices are untouched |
| `Match.Step` | src/App.jsx:58-87 | a round after the match is over changes nothing; otherwise both choices are recorded, and each score goes up by one exactly when its side's move beats the other's, so a draw changes neither score and a decisive round changes exactly one; the invariant (scores in 0..5, not both 5, over exactly when a score is 5, popup with over, final message matches the winner) is kept |
| `Match.ConcludesExactlyAtWinningScore` | src/App.jsx:80-86 | from a reachable open state, a round ends the match exactly when it takes a score from 4 to 5; then the popup is shown and the message is the champion message exactly when the user has 5 |
| `Match.PlayKeepsInv` | src/App.jsx:58-87 | every sequence of rounds keeps the invariant |
| `Match.OverIsFrozen` | src/App.jsx:59 | once the match is over, any sequence of rounds leaves the state unchanged and no round is accepted |
| `Match.ScoresTallyOutcomes` | src/App.jsx:42-56 | after any sequence of rounds, each score has gone up by exactly the number of accepted rounds its side won |
| `Match.CountPartition` | src/App.jsx:70-77 | user wins, computer wins and draws together account for every accepted round |
| `Match.OpenMatchAcceptsEveryRound` | src/App.jsx:59 | if the match is still open after a sequence of rounds, none of them was rejected |
| `Match.RoundsAddUp` | src/App.jsx:58-87 | from the start state, the invariant holds, user score plus computer score plus draws equals the number of accepted rounds, that is every round while the match is open, and a match has at most 9 decisive rounds |
| `Match.FiveRockWinsMatch` | src/App.jsx:58-87 | five rounds of rock against scissors from the start give 5-0, match over, popup shown, champion message, and five user wins |
| `Match.Game.constructor` | src/App.jsx:11-19 | the new view state is the start state and satisfies the invariant |
| `Match.Game.DrawGame` | src/App.jsx:37-40 | the draw branch sets the draw message and changes nothing else |
| `Match.Game.ShowWinner` | src/App.jsx:42-56 | the winner's score goes up by exactly one, the other is unchanged, and the message names the winner and both moves |
| `Match.Game.MatchEndEffect` | src/App.jsx:80-87 | the fields become `MatchEnd` of the old state |
| `Match.Game.PlayRound` | src/App.jsx:58-78 | the new state is `Step` of the old state and the two moves; the invariant is kept; a click on a finished match changes no field |
| `Match.Game.Reset` | src/App.jsx:92-101 | from any state, the fields become the start state: scores 0, not over, no popup, no last choices, the greeting message |

## Left out

- `Math.random` in the computer's choice: the random index, or the computer's move itself, is a parameter, so every property holds for every computer move.
- Sound playback (`Audio`) on a click, a win and a loss: a browser side effect that does not touch the game state.
- The animation flags `choiceAnim`, `userAnim`, `compAnim` and the timers that clear them: cosmetic and timer-driven, with no effect on scoring.
- The wording and colour of the messages: `Message` keeps only which message is shown and the two moves it names.
- The deferred scheduling of the threshold effect: it is modelled as the last step of the round that changed a score.
- The JSX rendering, the image map of the three moves and the click wiring.
