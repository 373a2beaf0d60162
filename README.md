# Rock-paper-scissors match engine, modelled in Dafny

This project models the engine of a console game of rock, paper, scissors
(`RockPaperScissors.py`). The model covers these parts:

- **Moves.** The three moves, the list `valid_moves` that fixes their order, and the
  console spelling of each move (`moves.dfy`, modules `Wrappers` and `Moves`).
- **Round resolver.** `is_move_stronger`, the explicit "beats" lookup, and
  `check_result`, which maps a pair of moves to 1, 2 or 0 (`rules.dfy`, module `Rules`).
- **Player strategies.** These are in `players.dfy`, module `Players`:
  - the base `Player`, which always plays rock;
  - `ReflectPlayer`, which replays the opponent's last move;
  - `CyclePlayer`, which steps through `valid_moves`;
  - `RandomPlayer` and `HumanPlayer`, whose random draw and console lines become
    parameters.

  The class hierarchy becomes one class, `Player`, tagged by its `Strategy`. Its
  fields are the Python fields: `score`, `lastCounterpartMove` and `lastMove`.
  A value type, `PlayerState`, mirrors those fields. The pure functions `Chosen`,
  `AfterPlay` and `AfterLearn` specify the methods `Play` and `Learn`.
- **Game.** `play_round` plays both players, resolves the round, makes each
  player learn the other's move, and awards at most one point. `play_match`
  repeats rounds until the user stops and then announces the verdict
  (`match.dfy`, module `Match`, class `Game`). The pure functions `Round` and
  `Rounds` specify `PlayRound` and `PlayMatch`.

The model follows the code where a cleaner design would differ:

- The score lives in the player object.
- Each player learns the other's move before the score is updated.
- `ReflectPlayer.learn` and the final verdict are modelled both as written and
  as corrected (see "## Findings"); the rest of the model uses the corrected forms.

## Model

| member | source | states |
|---|---|---|
| `Moves.IndexOf` | RockPaperScissors.py:72 | `valid_moves.index(m)` is the one position holding `m`, below 3 |
| `Moves.Parse` | RockPaperScissors.py:86 | a console line passes `in valid_moves` exactly when it is one of the three names, and then it names the move returned |
| `Moves.ParseName` | RockPaperScissors.py:3 | every move's stored name is accepted back as the same move |
| `Rules.IsMoveStronger` | RockPaperScissors.py:157-171 | the explicit three-case lookup: true exactly for (rock, scissor), (scissor, paper) and (paper, rock), so never for a move against itself |
| `Rules.StrongerByIndex` | RockPaperScissors.py:157-171 | the three-case lookup holds exactly when the first move sits one place after the second in `valid_moves`, cyclically |
| `Rules.StrongerIsTournament` | RockPaperScissors.py:157-171 | no move is stronger than itself; of two moves at most one is stronger; of two different moves one is |
| `Rules.CheckResult` | RockPaperScissors.py:141-154 | the result is 0, 1 or 2; 1 exactly when the first move is stronger, 2 exactly when the second is, 0 exactly for equal moves |
| `Rules.CheckResultMirror` | RockPaperScissors.py:141-154 | equal moves draw; swapping the moves swaps 1 and 2 and keeps 0 |
| `Players.FixedMove` | RockPaperScissors.py:13-15 | the base `play` returns `valid_moves[0]`, rock |
| `Players.ReflectMove` | RockPaperScissors.py:43-47 | rock while nothing is remembered, otherwise exactly the remembered opponent move |
| `Players.CycleMove` | RockPaperScissors.py:66-77 | the first move is rock; later the index is the last move's index plus one modulo 3, so the move differs from the last one and beats it |
| `Players.AfterPlay` | RockPaperScissors.py:66-77 | `play` changes only a `CyclePlayer`, which records the move it returns; the score and the opponent memory never change |
| `Players.AfterLearn` | RockPaperScissors.py:49-54 | `learn(m)` changes only a `ReflectPlayer`, which stores `m` as its remembered move, so its next move is `m`; the base no-op leaves the other classes unchanged |
| `Players.ReflectLearnAsWritten` | RockPaperScissors.py:49-54 | as written, every call of `ReflectPlayer.learn` ends in a `NameError` for `last_counterpart_move` |
| `Players.CycleMoveAfter` | RockPaperScissors.py:72-75 | after `n` plays of the cycle, the next play is `valid_moves[n % 3]` |
| `Players.FixedTrace` | RockPaperScissors.py:13-23 | a base `Player` returns rock on every `play`; no mix of `play` and `learn` calls changes its state |
| `Players.CycleTrace` | RockPaperScissors.py:64-77 | a fresh `CyclePlayer`'s k-th play returns `valid_moves[k % 3]`; its last move is that of its latest play; `learn` calls never affect the sequence |
| `Players.ReflectTrace` | RockPaperScissors.py:41-54 | a `ReflectPlayer` changes only its opponent memory, which holds the last move learnt; `play` returns that move, or rock before any `learn`, and never changes state |
| `Players.RandomMove` | RockPaperScissors.py:28-31 | for a draw of `randint(0, 2)`, the move returned is the one at that index |
| `Players.HumanPlay` | RockPaperScissors.py:82-88 | the move returned is named by the first line that is a move name; every earlier line was rejected with one notice; no move means no line was valid |
| `Players.Player.constructor` | RockPaperScissors.py:9-11 | a new player has score 0 and no remembered moves |
| `Players.Player.Play` | RockPaperScissors.py:43-77 | returns the move its state determines and moves to the `AfterPlay` state |
| `Players.Player.Learn` | RockPaperScissors.py:49-54 | moves to the `AfterLearn` state |
| `Match.Round` | RockPaperScissors.py:120-138 | both moves come from the states before the round; each player learns exactly the move its opponent just played; result 1 adds one to player 1 only, 2 to player 2 only, 0 to neither |
| `Match.Rounds` | RockPaperScissors.py:104-105 | `n` repeated rounds give `n` reports; the players keep their classes and neither score goes down |
| `Match.ScoreTally` | RockPaperScissors.py:131-138 | after `n` rounds each score has grown by the number of rounds that player won; the two together by at most `n` |
| `Match.ScoresNeverDecrease` | RockPaperScissors.py:131-138 | neither score decreases from an earlier round to a later one |
| `Match.ReflectEchoesOpponent` | RockPaperScissors.py:122-127 | a `ReflectPlayer` as player 1 opens with rock; in each later round it plays player 2's move of the round before |
| `Match.CycleOpponentSequence` | RockPaperScissors.py:122-127 | a fresh `CyclePlayer` as player 2 plays `valid_moves[k % 3]` in round k, whatever player 1 does |
| `Match.FixedAgainstCycle` | RockPaperScissors.py:120-138 | four rounds of a base `Player` against a `CyclePlayer` give draw, loss, win, draw; the score is 1 x 1 and the match is a draw |
| `Match.VerdictAsWritten` | RockPaperScissors.py:111-116 | as written, the verdict is never "Player 2 beats Player 1"; it is a draw exactly when player 1 does not lead |
| `Match.VerdictAsWrittenMisreports` | RockPaperScissors.py:111-116 | at 0 x 1 the verdict as written is a draw, while the intended verdict is a win for player 2 |
| `Match.FinalVerdict` | RockPaperScissors.py:111-116 | player 1 wins exactly when it leads, player 2 exactly when it leads, and a draw exactly on equal scores |
| `Match.Game.constructor` | RockPaperScissors.py:93-96 | a game owns two distinct, fresh players of the given classes, both in their initial state |
| `Match.Game.PlayRound` | RockPaperScissors.py:120-138 | the players' new state and the reported moves and result are those of `Round` on the state before |
| `Match.Game.PlayMatch` | RockPaperScissors.py:98-118 | one round is always played, then one more per `Continue` answer, until the first `Stop`; the players end in the state `Rounds` gives; the verdict is `FinalVerdict` of the final scores |

## Left out

- Console text is not modelled: prompts, printed messages and the score lines
  (RockPaperScissors.py:101-102, 106-108, 110, 112, 114, 116-118, 129-130, 133, 136, 138). The moves and result a round
  reports are returned instead.
- The module-level start-up at RockPaperScissors.py:175-176 is not modelled: it only
  constructs a `Game` and calls `play_match`.
- `Match.Game.constructor`: takes the two players' classes as parameters. The code always
  builds a `HumanPlayer` and a `CyclePlayer`. A human player is not a `Strategy` of the
  `Player` class, because its move comes from the console.
- `Players.HumanPlay`: the console lines are a finite parameter. Where the code would wait
  forever for a valid line, the model returns no move once the lines run out.
- `Players.RandomMove`: the draw of `random.randint(0, 2)` is a parameter. A random player is
  not a `Strategy` of the `Player` class, and uniformity is not modelled.
- `Match.Game.PlayMatch`: the user's ctrl+C is modelled as a `Stop` answer at the "play again"
  prompt, and the end of the answers also ends the match. An interrupt typed while a human
  player is being asked for a move, mid-round, is not modelled. The verdict it returns is the
  corrected `Match.FinalVerdict`, not the as-written comparison at RockPaperScissors.py:111-116:
  when player 2 leads (for example a base `Player` against a `CyclePlayer` with the answers
  `Continue`, `Stop`, ending 0 x 1) it returns `Player2Wins` where the code prints a draw.
- Moves are a three-valued datatype, not strings. `is_move_stronger` and `check_result` are
  therefore only modelled on the three move names, the only strings that reach them.
- Python's `score` is an unbounded integer. The model's `nat` matches it, so no overflow is
  modelled.

## Findings

| source | as written | input that shows it | evidently intended | confidence | as-written member | corrected member |
|---|---|---|---|---|---|---|
| RockPaperScissors.py:111-116 | the second test repeats `player1.score > player2.score`, so "Player 2 beats Player 1" is never printed | final score 0 x 1: announced as "The game was a draw!" | the three-way comparison `>`, `<`, `==` | high; not executed | `Match.VerdictAsWritten` | `Match.FinalVerdict` |
| RockPaperScissors.py:49-54 | the parameter is spelt `last_counterpartt_move`, but the body reads `last_counterpart_move`, a name bound nowhere | any round with a `ReflectPlayer`, e.g. `learn('paper')`, raises `NameError` | store the argument, so that the next `play` returns it | high; not executed | `Players.ReflectLearnAsWritten` | `Players.AfterLearn` |
